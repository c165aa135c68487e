/** Market data shared by the replay, the candle store and the swing detector. */
module Market {

  /** Milliseconds since the epoch, as an identity for a bar. */
  datatype OpenTime = OpenTime(ms: int)

  datatype Candle = Candle(openTime: OpenTime, open: real, high: real, low: real, close: real)
}
