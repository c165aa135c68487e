/**
  The append-only audit log: critical and plain appends, the durability contract, and rotation.
  Whether a disk write succeeds, and whether the file has outgrown its limit, are left open.
 */
module EventStore {
  import opened Prelude
  import opened Lifecycle
  import TailReader

  /** How a record becomes a line of the file, and a line a record. */
  datatype Codec = Codec(encode: Event -> string, parse: string -> Option<Event>)

  /** Every record is written as one line with nothing around it, and read back as itself. */
  ghost predicate RoundTrips(codec: Codec) {
    forall e: Event :: TailReader.IsRecord(codec.encode(e)) && codec.parse(codec.encode(e)) == Some(e)
  }

  function Lines(file: seq<Event>, codec: Codec): (r: seq<string>)
    ensures |r| == |file|
  {
    seq(|file|, i requires 0 <= i < |file| => codec.encode(file[i]))
  }

  lemma LinesAreLog(file: seq<Event>, codec: Codec)
    requires RoundTrips(codec)
    ensures TailReader.IsLog(Lines(file, codec), codec.parse)
  {
    hide TailReader.IsRecord, TailReader.IsLog;
    TailReader.RecordsMakeLogs(Lines(file, codec), codec.parse);
  }

  lemma LastLines(file: seq<Event>, codec: Codec, limit: nat)
    ensures LastN(Lines(file, codec), limit) == Lines(LastN(file, limit), codec)
  {
  }

  /** Parsing the lines of a file gives back its records, none dropped. */
  lemma {:induction false} ParsedBack(file: seq<Event>, codec: Codec)
    requires RoundTrips(codec)
    ensures TailReader.Parsed(Lines(file, codec), codec.parse) == file
  {
    if file == [] {
    } else {
      assert Lines(file, codec)[1..] == Lines(file[1..], codec);
      ParsedBack(file[1..], codec);
    }
  }

  const ROTATE_CHECK_EVERY: nat := 1000
  const ROTATE_KEEP: nat := 10_000

  /** The order in which effects leave the process: log records reaching disk, calls reaching the venue. */
  class Journal {
    ghost var trace: seq<Effect>

    constructor ()
      ensures trace == []
    {
      trace := [];
    }
  }

  class EventStore {
    const durable: bool
    const journal: Journal
    var file: seq<Event>
    var healthy: bool
    var writesSinceRotateCheck: nat
    /** How often the store has looked whether to rotate. */
    ghost var rotateChecks: nat

    /** A process opens the store on whatever records the file already holds. */
    constructor (durable: bool, journal: Journal, file: seq<Event>)
      ensures this.durable == durable && this.journal == journal
      ensures this.file == file && healthy && writesSinceRotateCheck == 0
    {
      this.durable, this.journal := durable, journal;
      this.file, healthy, writesSinceRotateCheck := file, true, 0;
    }

    /** Rewrite the file with its newest 10 000 records when it is too large and the rewrite works. */
    method MaybeRotate() returns (ghost dropped: nat)
      modifies `file, `rotateChecks
      ensures rotateChecks == old(rotateChecks) + 1
      ensures dropped == 0 || dropped == |old(file)| - ROTATE_KEEP
      ensures dropped <= |old(file)| && file == old(file)[dropped..]
    {
      dropped, rotateChecks := 0, rotateChecks + 1;
      var tooLarge, rewritten := *, *;
      if tooLarge && |file| > ROTATE_KEEP && rewritten {
        dropped := |file| - ROTATE_KEEP;
        file := LastN(file, ROTATE_KEEP);
      }
    }

    /** Append one record; a failure marks the store unhealthy, a success heals it. */
    method Write(e: Event) returns (ok: bool, ghost w: Outcome)
      modifies this, journal
      ensures ok <==> w.Written?
      ensures healthy == ok
      ensures file == if ok then Appended(old(file), e, w.dropped) else old(file)
      ensures ok && w.dropped > 0 ==> |file| == ROTATE_KEEP
      ensures var due := ok && old(writesSinceRotateCheck) + 1 >= 1000;
        && writesSinceRotateCheck == (if due then 0 else old(writesSinceRotateCheck) + if ok then 1 else 0)
        && rotateChecks == old(rotateChecks) + (if due then 1 else 0)
        && (ok && w.dropped > 0 ==> due)
      ensures journal.trace == if ok then old(journal.trace) + [Wrote(e)] else old(journal.trace)
    {
      ok := *;
      if !ok {
        healthy, w := false, Failed;
        return;
      }
      file, healthy := file + [e], true;
      journal.trace := journal.trace + [Wrote(e)];
      ghost var dropped: nat := 0;
      writesSinceRotateCheck := writesSinceRotateCheck + 1;
      if writesSinceRotateCheck >= ROTATE_CHECK_EVERY {
        writesSinceRotateCheck := 0;
        dropped := MaybeRotate();
      }
      w := Written(dropped);
    }

    /** Telemetry: a lost record degrades the store but stops nobody. */
    method Append(e: Event) returns (ghost w: Outcome)
      modifies this, journal
      ensures healthy == w.Written?
      ensures file == if w.Written? then Appended(old(file), e, w.dropped) else old(file)
      ensures journal.trace == if w.Written? then old(journal.trace) + [Wrote(e)] else old(journal.trace)
    {
      var ok;
      ok, w := Write(e);
    }

    /** Audit record: in durable mode a lost record throws. */
    method AppendCritical(e: Event) returns (thrown: bool, ghost w: Outcome)
      modifies this, journal
      ensures thrown <==> w.Failed? && durable
      ensures healthy == w.Written?
      ensures file == if w.Written? then Appended(old(file), e, w.dropped) else old(file)
      ensures journal.trace == if w.Written? then old(journal.trace) + [Wrote(e)] else old(journal.trace)
    {
      var ok;
      ok, w := Write(e);
      thrown := !ok && durable;
    }

    /** The newest records: the file's text is read from its end, chunk by chunk, and parsed back. */
    method ReadAll(limit: nat, codec: Codec) returns (tail: seq<Event>)
      requires limit > 0 && RoundTrips(codec)
      ensures tail == LastN(file, limit)
    {
      var lines := Lines(file, codec);
      LinesAreLog(file, codec);
      tail := TailReader.ReadFileTail(TailReader.Text(lines), limit, codec.parse, lines, "");
      LastLines(file, codec, limit);
      ParsedBack(LastN(file, limit), codec);
    }
  }
}
