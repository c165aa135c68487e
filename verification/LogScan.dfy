/** Reading orders back out of the audit log: two loops that index and resolve it. */
module LogScan {
  import opened Prelude
  import opened OrderState
  import opened Lifecycle
  import LifecycleTheorems

  datatype HydratedOrder = HydratedOrder(
    spec: OrderSpec,
    status: OrderStatus,
    orderId: Option<string>,
    registeredAt: int
  )

  datatype Indexes = Indexes(
    registered: map<string, Event>,
    transitions: map<string, seq<Event>>,
    submitted: set<string>
  )

  /** What the log says about one id is what the indexes hold for it. */
  ghost predicate IndexedId(log: seq<Event>, x: Indexes, id: string) {
    && (id in x.registered <==> id != "" && LastRegistration(log, id).Some?)
    && (id in x.registered ==> LastRegistration(log, id) == Some(x.registered[id]))
    && (id in x.transitions <==> id != "" && LastTransition(log, id).Some?)
    && (id in x.transitions ==> x.transitions[id] != [])
    && (id in x.transitions ==> LastTransition(log, id) == Some(x.transitions[id][|x.transitions[id]| - 1]))
    && (id in x.submitted <==> id != "" && HasIntent(log, id))
  }

  ghost predicate Indexed(log: seq<Event>, x: Indexes) {
    forall id :: IndexedId(log, x, id)
  }

  /** One event into the indexes; events without a decision id are skipped. */
  function AddEvent(x: Indexes, e: Event): Indexes {
    match e
    case OrderRegistered(id, _, _) => if id == "" then x else x.(registered := x.registered[id := e])
    case SubmissionIntent(id) => if id == "" then x else x.(submitted := x.submitted + {id})
    case OrderTransition(id, _, _, _) =>
      if id == "" then x
      else x.(transitions := x.transitions[id := (if id in x.transitions then x.transitions[id] else []) + [e]])
    case Other(_) => x
  }

  lemma AddEventIndexes(log: seq<Event>, x: Indexes, e: Event, id: string)
    requires IndexedId(log, x, id)
    ensures IndexedId(log + [e], AddEvent(x, e), id)
  {
    var all := log + [e];
    assert all[..|log|] == log && all[|log|] == e;
    assert HasIntent(all, id) <==> HasIntent(log, id) || e == SubmissionIntent(id) by {
      if i :| 0 <= i < |log| && log[i] == SubmissionIntent(id) {
        assert all[i] == SubmissionIntent(id);
      }
    }
  }

  method IndexEvents(source: seq<Event>) returns (x: Indexes)
    ensures Indexed(source, x)
  {
    x := Indexes(map[], map[], {});
    var i := 0;
    while i < |source|
      invariant 0 <= i <= |source|
      invariant Indexed(source[..i], x)
    {
      var next := AddEvent(x, source[i]);
      ghost var seen := source[..i] + [source[i]];
      forall id
        ensures IndexedId(seen, next, id)
      {
        AddEventIndexes(source[..i], x, source[i], id);
      }
      assert source[..i + 1] == seen;
      x := next;
      i := i + 1;
    }
    assert source[..i] == source;
  }

  /** The order a rebuild makes of `id`, read straight off the log. */
  function HydratedOf(log: seq<Event>, id: string): Option<HydratedOrder> {
    match RevivedStatus(log, id)
    case None => None
    case Some(status) =>
      var reg := LastRegistration(log, id);
      var last := LastTransition(log, id);
      if reg.Some? && reg.value.OrderRegistered? then
        Some(HydratedOrder(reg.value.spec, status,
                           if last.Some? && last.value.OrderTransition? then last.value.orderId else None,
                           reg.value.at))
      else None
  }

  lemma {:induction false} LastRegistrationShape(log: seq<Event>, id: string)
    ensures LastRegistration(log, id).Some? ==> LastRegistration(log, id).value.OrderRegistered?
  {
    if log == [] {
    } else {
      LastRegistrationShape(log[..|log| - 1], id);
    }
  }

  /** The last event of a kind is where nothing of that kind comes after it. */
  lemma {:induction false} LastRegistrationAt(log: seq<Event>, id: string, k: nat)
    requires k < |log| && log[k].OrderRegistered? && log[k].id == id
    requires forall i :: k < i < |log| ==> !(log[i].OrderRegistered? && log[i].id == id)
    ensures LastRegistration(log, id) == Some(log[k])
  {
    if k == |log| - 1 {
    } else {
      LastRegistrationAt(log[..|log| - 1], id, k);
    }
  }

  lemma {:induction false} LastTransitionAt(log: seq<Event>, id: string, k: nat)
    requires k < |log| && log[k].OrderTransition? && log[k].id == id
    requires forall i :: k < i < |log| ==> !(log[i].OrderTransition? && log[i].id == id)
    ensures LastTransition(log, id) == Some(log[k])
  {
    if k == |log| - 1 {
    } else {
      LastTransitionAt(log[..|log| - 1], id, k);
    }
  }

  lemma {:induction false} NeverMoved(log: seq<Event>, id: string)
    requires forall i :: 0 <= i < |log| ==> !(log[i].OrderTransition? && log[i].id == id)
    ensures LastTransition(log, id) == None
  {
    if log == [] {
    } else {
      NeverMoved(log[..|log| - 1], id);
    }
  }

  lemma {:induction false} NeverRegistered(log: seq<Event>, id: string)
    requires forall i :: 0 <= i < |log| ==> !(log[i].OrderRegistered? && log[i].id == id)
    ensures LastRegistration(log, id) == None
  {
    if log == [] {
    } else {
      NeverRegistered(log[..|log| - 1], id);
    }
  }

  /** The status a rebuild gives an order whose last logged status is `raw`. */
  function Revived(raw: OrderStatus, intentLogged: bool): OrderStatus {
    match raw
    case SUBMITTING => UNKNOWN
    case RISK_APPROVED => if intentLogged then UNKNOWN else RISK_APPROVED
    case _ => raw
  }

  /**
    A rebuilt order, event by event: the terms and the time are those of its last registration at
    `k`, status and venue id those of its last transition at `j`, if it has one.
   */
  lemma RebuiltFromEvents(log: seq<Event>, id: string, k: nat, j: Option<nat>)
    requires k < |log| && log[k].OrderRegistered? && log[k].id == id && id != ""
    requires forall i :: k < i < |log| ==> !(log[i].OrderRegistered? && log[i].id == id)
    requires j.Some? ==> j.value < |log| && log[j.value].OrderTransition? && log[j.value].id == id
    requires forall i :: (if j.Some? then j.value + 1 else 0) <= i < |log| ==>
      !(log[i].OrderTransition? && log[i].id == id)
    ensures var status := Revived(if j.Some? then log[j.value].to else RISK_APPROVED, SubmissionIntent(id) in log);
      HydratedOf(log, id) ==
        if status in {CLOSED, REJECTED, CANCELLED, EXPIRED} then None
        else Some(HydratedOrder(log[k].spec, status, if j.Some? then log[j.value].orderId else None, log[k].at))
  {
    LastRegistrationAt(log, id, k);
    if j.Some? {
      LastTransitionAt(log, id, j.value);
    } else {
      NeverMoved(log, id);
    }
    TerminalStates(Revived(if j.Some? then log[j.value].to else RISK_APPROVED, SubmissionIntent(id) in log));
    hide Allowed, LastRegistration, LastTransition;
  }

  lemma TerminalStates(status: OrderStatus)
    ensures IsTerminal(status) <==> status in {CLOSED, REJECTED, CANCELLED, EXPIRED}
  {
    match status {
      case ORDER_INTENT => assert RISK_APPROVED in Allowed(status);
      case RISK_APPROVED => assert SUBMITTING in Allowed(status);
      case SUBMITTING => assert UNKNOWN in Allowed(status);
      case SUBMITTED => assert UNKNOWN in Allowed(status);
      case ACKNOWLEDGED => assert UNKNOWN in Allowed(status);
      case PARTIALLY_FILLED => assert UNKNOWN in Allowed(status);
      case FILLED => assert CLOSED in Allowed(status);
      case POSITION_OPEN => assert CLOSED in Allowed(status);
      case PROTECTED => assert CLOSED in Allowed(status);
      case EXIT_REQUESTED => assert CLOSED in Allowed(status);
      case UNKNOWN => assert CLOSED in Allowed(status);
      case _ =>
    }
  }

  /** What the log does not register is not rebuilt. */
  lemma UnregisteredIsNotRebuilt(log: seq<Event>, id: string)
    requires id == "" || forall i :: 0 <= i < |log| ==> !(log[i].OrderRegistered? && log[i].id == id)
    ensures HydratedOf(log, id) == None
  {
    if id == "" {
    } else {
      NeverRegistered(log, id);
    }
  }

  /** Resolve one registered id from the indexes; None when it is terminal. */
  function Resolve(x: Indexes, id: string): Option<HydratedOrder>
    requires id in x.registered && x.registered[id].OrderRegistered?
    requires id in x.transitions ==>
      x.transitions[id] != [] && x.transitions[id][|x.transitions[id]| - 1].OrderTransition?
  {
    var reg := x.registered[id];
    var last := if id in x.transitions then Some(x.transitions[id][|x.transitions[id]| - 1]) else None;
    var raw := if last.Some? then last.value.to else RISK_APPROVED;
    var status := if raw == SUBMITTING || (raw == RISK_APPROVED && id in x.submitted) then UNKNOWN else raw;
    if IsTerminal(status) then None
    else Some(HydratedOrder(reg.spec, status, if last.Some? then last.value.orderId else None, reg.at))
  }

  lemma ResolveReadsLog(log: seq<Event>, x: Indexes, id: string)
    requires IndexedId(log, x, id) && id in x.registered
    ensures x.registered[id].OrderRegistered?
    ensures id in x.transitions ==>
      x.transitions[id] != [] && x.transitions[id][|x.transitions[id]| - 1].OrderTransition?
    ensures Resolve(x, id) == HydratedOf(log, id)
  {
    LastRegistrationShape(log, id);
    LifecycleTheorems.LastTransitionExists(log, id);
    hide Allowed, LastRegistration, LastTransition, HasIntent;
  }

  /** The orders to put back into memory: exactly the ids the log revives, each with its logged data. */
  method ScanOrderEvents(source: seq<Event>) returns (out: map<string, HydratedOrder>)
    ensures forall id :: id in out <==> HydratedOf(source, id).Some?
    ensures forall id :: id in out ==> HydratedOf(source, id) == Some(out[id])
  {
    var x := IndexEvents(source);
    out := map[];
    var todo := x.registered.Keys;
    while todo != {}
      invariant todo <= x.registered.Keys
      invariant forall id :: id in out ==> id in x.registered && id !in todo && HydratedOf(source, id) == Some(out[id])
      invariant forall id :: id in x.registered && id !in todo && id !in out ==> HydratedOf(source, id).None?
      decreases |todo|
    {
      var id :| id in todo;
      todo := todo - {id};
      assert IndexedId(source, x, id);
      ResolveReadsLog(source, x, id);
      var h := Resolve(x, id);
      if h.Some? {
        out := out[id := h.value];
      }
    }
    forall id | id !in out
      ensures HydratedOf(source, id).None?
    {
      assert IndexedId(source, x, id);
    }
  }

  /** The rebuilt statuses are the protocol machine's revived orders. */
  lemma ScanIsRevive(log: seq<Event>, id: string)
    ensures HydratedOf(log, id).Some? <==> id in Revive(log)
    ensures HydratedOf(log, id).Some? ==> HydratedOf(log, id).value.status == Revive(log)[id]
  {
    LastRegistrationShape(log, id);
    LifecycleTheorems.LastRegistrationExists(log, id);
    if LastRegistration(log, id).Some? && RevivedStatus(log, id).Some? {
      var i :| 0 <= i < |log| && LifecycleTheorems.IsRegistration(log[i], id);
      assert log[i].id in Revive(log);
    }
  }
}
