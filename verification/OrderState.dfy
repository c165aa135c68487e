/** The order lifecycle: its states, and the edges an order may take. */
module OrderState {

  datatype OrderStatus =
    | ORDER_INTENT
    | RISK_APPROVED
    | SUBMITTING
    | SUBMITTED
    | ACKNOWLEDGED
    | PARTIALLY_FILLED
    | FILLED
    | POSITION_OPEN
    | PROTECTED
    | EXIT_REQUESTED
    | CLOSED
    | REJECTED
    | CANCELLED
    | EXPIRED
    | UNKNOWN

  function Allowed(from: OrderStatus): set<OrderStatus> {
    match from
    case ORDER_INTENT => {RISK_APPROVED, REJECTED}
    case RISK_APPROVED => {SUBMITTING, CANCELLED, EXPIRED}
    case SUBMITTING => {SUBMITTED, UNKNOWN, REJECTED, FILLED, PARTIALLY_FILLED}
    case SUBMITTED => {ACKNOWLEDGED, PARTIALLY_FILLED, FILLED, UNKNOWN, CANCELLED, EXPIRED, REJECTED}
    case ACKNOWLEDGED => {PARTIALLY_FILLED, FILLED, UNKNOWN, CANCELLED, EXPIRED}
    case PARTIALLY_FILLED => {PARTIALLY_FILLED, FILLED, UNKNOWN, CANCELLED, EXPIRED}
    case FILLED => {POSITION_OPEN, CLOSED}
    case POSITION_OPEN => {PROTECTED, EXIT_REQUESTED, CLOSED, UNKNOWN}
    case PROTECTED => {EXIT_REQUESTED, CLOSED, UNKNOWN}
    case EXIT_REQUESTED => {SUBMITTING, CLOSED, UNKNOWN, REJECTED}
    case CLOSED => {}
    case REJECTED => {}
    case CANCELLED => {}
    case EXPIRED => {}
    case UNKNOWN => {SUBMITTED, ACKNOWLEDGED, PARTIALLY_FILLED, FILLED, CANCELLED, CLOSED}
  }

  predicate CanTransition(from: OrderStatus, to: OrderStatus) {
    to in Allowed(from)
  }

  /** The same edges, read from their targets. */
  function ComesFrom(to: OrderStatus): set<OrderStatus> {
    match to
    case ORDER_INTENT => {}
    case RISK_APPROVED => {ORDER_INTENT}
    case SUBMITTING => {RISK_APPROVED, EXIT_REQUESTED}
    case SUBMITTED => {SUBMITTING, UNKNOWN}
    case ACKNOWLEDGED => {SUBMITTED, UNKNOWN}
    case PARTIALLY_FILLED => {SUBMITTING, SUBMITTED, ACKNOWLEDGED, PARTIALLY_FILLED, UNKNOWN}
    case FILLED => {SUBMITTING, SUBMITTED, ACKNOWLEDGED, PARTIALLY_FILLED, UNKNOWN}
    case POSITION_OPEN => {FILLED}
    case PROTECTED => {POSITION_OPEN}
    case EXIT_REQUESTED => {POSITION_OPEN, PROTECTED}
    case CLOSED => {FILLED, POSITION_OPEN, PROTECTED, EXIT_REQUESTED, UNKNOWN}
    case REJECTED => {ORDER_INTENT, SUBMITTING, SUBMITTED, EXIT_REQUESTED}
    case CANCELLED => {RISK_APPROVED, SUBMITTED, ACKNOWLEDGED, PARTIALLY_FILLED, UNKNOWN}
    case EXPIRED => {RISK_APPROVED, SUBMITTED, ACKNOWLEDGED, PARTIALLY_FILLED}
    case UNKNOWN =>
      {SUBMITTING, SUBMITTED, ACKNOWLEDGED, PARTIALLY_FILLED, POSITION_OPEN, PROTECTED, EXIT_REQUESTED}
  }

  lemma EdgesByTarget(from: OrderStatus, to: OrderStatus)
    ensures CanTransition(from, to) <==> from in ComesFrom(to)
  {
  }

  predicate IsTerminal(status: OrderStatus) {
    Allowed(status) == {}
  }

  /** No edge of the table leads back to the start, or out of a terminal state. */
  lemma NoWayBack(from: OrderStatus, to: OrderStatus)
    requires CanTransition(from, to)
    ensures to != ORDER_INTENT && (to == RISK_APPROVED ==> from == ORDER_INTENT)
    ensures !IsTerminal(from)
  {
  }
}
