/**
  The order protocol as a machine of atomic effects: registering, writing an audit event,
  calling the venue, rotating the log, crashing at any point and rebuilding from whatever part
  of the log can still be read.
 */
module Lifecycle {
  import opened Prelude
  import opened OrderState
  import opened LedgerModel

  datatype OrderSpec = OrderSpec(pair: string, symbol: string, side: Side, quantity: int, reservationId: Option<string>)

  /** The audit events the order path writes; `Other` stands for every kind the scan skips. */
  datatype Event =
    | OrderRegistered(id: string, spec: OrderSpec, at: int)
    | SubmissionIntent(id: string)
    | OrderTransition(id: string, from: OrderStatus, to: OrderStatus, orderId: Option<string>)
    | Other(kind: string)

  // ---- what a rebuild reads out of a log ----

  function LastRegistration(log: seq<Event>, id: string): Option<Event> {
    if log == [] then None
    else
      var e := log[|log| - 1];
      if e.OrderRegistered? && e.id == id then Some(e) else LastRegistration(log[..|log| - 1], id)
  }

  function LastTransition(log: seq<Event>, id: string): Option<Event> {
    if log == [] then None
    else
      var e := log[|log| - 1];
      if e.OrderTransition? && e.id == id then Some(e) else LastTransition(log[..|log| - 1], id)
  }

  predicate HasIntent(log: seq<Event>, id: string) {
    exists i :: 0 <= i < |log| && log[i] == SubmissionIntent(id)
  }

  /** The status a registered order is rebuilt with; None when it is terminal or unknown to the log. */
  function RevivedStatus(log: seq<Event>, id: string): Option<OrderStatus> {
    if id == "" || LastRegistration(log, id).None? then None
    else
      var last := LastTransition(log, id);
      var raw := if last.Some? && last.value.OrderTransition? then last.value.to else RISK_APPROVED;
      var status := if raw == SUBMITTING || (raw == RISK_APPROVED && HasIntent(log, id)) then UNKNOWN else raw;
      if IsTerminal(status) then None else Some(status)
  }

  // ---- the machine ----

  datatype Effect = Wrote(e: Event) | Placed(id: string) | RegisterCall(id: string)

  /** `orders` is memory, `disk` is the readable log, `cleared` are submissions about to call the venue. */
  datatype Sys = Sys(
    orders: map<string, OrderStatus>,
    cleared: set<string>,
    disk: seq<Event>,
    healthy: bool,
    trace: seq<Effect>
  )

  /** A write fails, or succeeds and may rotate the oldest `dropped` records away. */
  datatype Outcome = Failed | Written(dropped: nat)

  datatype Step =
    | Register(id: string, spec: OrderSpec, at: int, w: Outcome)
    | BeginSubmit(id: string, orderId: Option<string>, w: Outcome)
    | LogIntent(id: string, w: Outcome)
    | Place(id: string)
    | Transition(id: string, to: OrderStatus, orderId: Option<string>, w: Outcome)
    | LogOther(kind: string, w: Outcome)
    | Restart(unread: nat)

  function Initial(): Sys {
    Sys(map[], {}, [], true, [])
  }

  /** The orders a rebuild from `log` puts back into memory. */
  function Revive(log: seq<Event>): map<string, OrderStatus> {
    map i | 0 <= i < |log| && log[i].OrderRegistered? && RevivedStatus(log, log[i].id).Some?
      :: log[i].id := RevivedStatus(log, log[i].id).value
  }

  function Restarted(s: Sys, unread: nat): Sys
    requires unread <= |s.disk|
  {
    s.(orders := Revive(s.disk[unread..]), cleared := {}, healthy := true)
  }

  /** The file after appending `e` and rotating the oldest `dropped` earlier records away. */
  function Appended(disk: seq<Event>, e: Event, dropped: nat): seq<Event> {
    (disk + [e])[Min(dropped, |disk|)..]
  }

  function Write(s: Sys, e: Event, w: Outcome): Sys {
    match w
    case Failed => s.(healthy := false)
    case Written(dropped) =>
      s.(disk := Appended(s.disk, e, dropped),
         healthy := true,
         trace := s.trace + [Wrote(e)])
  }

  predicate Enabled(s: Sys, step: Step) {
    match step
    case Register(_, _, _, _) => true
    case BeginSubmit(id, _, _) => id in s.orders && s.orders[id] == RISK_APPROVED && s.healthy
    case LogIntent(id, _) => id in s.cleared
    case Place(id) => id in s.cleared
    case Transition(id, to, _, _) => id in s.orders && CanTransition(s.orders[id], to)
    case LogOther(_, _) => true
    case Restart(unread) => unread <= |s.disk|
  }

  /** One effect. In durable mode a submission whose transition could not be written is abandoned. */
  function Next(s: Sys, step: Step, durable: bool): Sys
    requires Enabled(s, step)
  {
    match step
    case Register(id, spec, at, w) =>
      Write(s.(orders := s.orders[id := RISK_APPROVED], trace := s.trace + [RegisterCall(id)]),
            OrderRegistered(id, spec, at), w)
    case BeginSubmit(id, orderId, w) =>
      var t := Write(s.(orders := s.orders[id := SUBMITTING]),
                     OrderTransition(id, RISK_APPROVED, SUBMITTING, orderId), w);
      if w.Failed? && durable then t else t.(cleared := t.cleared + {id})
    case LogIntent(id, w) => Write(s, SubmissionIntent(id), w)
    case Place(id) => s.(cleared := s.cleared - {id}, trace := s.trace + [Placed(id)])
    case Transition(id, to, orderId, w) =>
      Write(s.(orders := s.orders[id := to]), OrderTransition(id, s.orders[id], to, orderId), w)
    case LogOther(kind, w) => Write(s, Other(kind), w)
    case Restart(unread) => Restarted(s, unread)
  }

  ghost predicate IsRun(s: Sys, steps: seq<Step>, durable: bool, t: Sys)
    decreases |steps|
  {
    if steps == [] then s == t
    else Enabled(s, steps[0]) && IsRun(Next(s, steps[0], durable), steps[1..], durable, t)
  }
}
