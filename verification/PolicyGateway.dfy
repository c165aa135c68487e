/**
  The approval gateway: a proposal becomes an approved intent that owns a hold, and an approved
  intent is executed at most once, while its hold lives.
 */
module PolicyGateway {
  import opened Prelude
  import opened OrderState
  import opened RiskReservations

  datatype IntentState = PENDING | CONSUMED | LAPSED

  datatype Intent = Intent(
    reservationId: string,
    expectedPrice: real,
    maxSlippageBps: real,
    createdAt: int,
    expiresAt: int,
    state: IntentState
  )

  /** A proposal past validation, gates and risk: what is left to do is to reserve and to remember. */
  datatype Proposal = Proposal(
    snapshot: Portfolio,
    req: Request,
    limits: Limits,
    expectedPrice: real,
    maxSlippageBps: real,
    intentTtlMs: int
  )

  /** The gateway's state: intents, holds, and the decisions handed to `submit` so far. */
  datatype World = World(intents: map<string, Intent>, holds: seq<Hold>, submitted: seq<string>)

  datatype Verdict = Verified | NOT_FOUND | ALREADY_CONSUMED | EXPIRED_INTENT | HALTED

  function VerifyPendingIntent(intent: Option<Intent>, now: int, tradingAllowed: bool): Verdict {
    if intent.None? then NOT_FOUND
    else if intent.value.state.CONSUMED? then ALREADY_CONSUMED
    else if intent.value.state.LAPSED? then EXPIRED_INTENT
    else if now > intent.value.expiresAt then EXPIRED_INTENT
    else if !tradingAllowed then HALTED
    else Verified
  }

  predicate Executable(intent: Intent, now: int) {
    intent.state.PENDING? && now <= intent.expiresAt
  }

  function IntentOf(w: World, id: string): Option<Intent> {
    if id in w.intents then Some(w.intents[id]) else None
  }

  function NewIntent(p: Proposal, holdId: string, builtAt: int): Intent {
    Intent(holdId, p.expectedPrice, p.maxSlippageBps, builtAt, builtAt + p.intentTtlMs, PENDING)
  }

  predicate Accepted(w: World, p: Proposal, now: int) {
    LimitRejections(p.snapshot, Swept(w.holds, now), p.req, p.limits) == []
  }

  /** Reserve at `now`; when the hold is placed, remember an intent built at `builtAt`. */
  function Proposed(w: World, id: string, holdId: string, p: Proposal, now: int, builtAt: int): World {
    var holds := Reserved(w.holds, p.snapshot, p.req, p.limits, now, holdId);
    if Accepted(w, p, now) then w.(holds := holds, intents := w.intents[id := NewIntent(p, holdId, builtAt)])
    else w.(holds := holds)
  }

  /** The execution intent refuses a non-positive price or a negative tolerance, by throwing. */
  predicate Buildable(intent: Intent) {
    intent.expectedPrice > 0.0 && intent.maxSlippageBps >= 0.0
  }

  /** Executing `id` hands it to the engine: pending, in time, trading allowed, and a sound price and tolerance. */
  predicate HandsOver(intents: map<string, Intent>, id: string, now: int, tradingAllowed: bool) {
    id in intents &&
    var i := intents[id];
    i.state == PENDING && now <= i.expiresAt && tradingAllowed && i.expectedPrice > 0.0 && i.maxSlippageBps >= 0.0
  }

  function Executed(w: World, id: string, now: int, tradingAllowed: bool): World {
    match VerifyPendingIntent(IntentOf(w, id), now, tradingAllowed)
    case NOT_FOUND => w
    case ALREADY_CONSUMED => w
    case Verified =>
      w.(intents := w.intents[id := w.intents[id].(state := CONSUMED)],
         submitted := if Buildable(w.intents[id]) then w.submitted + [id] else w.submitted)
    case _ =>
      w.(intents := w.intents[id := w.intents[id].(state := LAPSED)],
         holds := Settled(w.holds, w.intents[id].reservationId, RELEASED))
  }

  /** What the order's status means for the hold: commit on a fill, release on a dead order, else keep it. */
  function Settlement(holds: seq<Hold>, holdId: string, status: OrderStatus): seq<Hold> {
    if status == FILLED || status == POSITION_OPEN then Settled(holds, holdId, COMMITTED)
    else if status == REJECTED || status == CANCELLED || status == EXPIRED then Settled(holds, holdId, RELEASED)
    else holds
  }

  /** What an order's status leaves a hold in: a fill commits it, a dead order releases it, nothing else ends it. */
  function HoldStateAfter(h: Hold, holdId: string, status: OrderStatus): HoldState {
    if h.id != holdId || h.state != ACTIVE then h.state
    else
      match status
      case FILLED => COMMITTED
      case POSITION_OPEN => COMMITTED
      case REJECTED => RELEASED
      case CANCELLED => RELEASED
      case EXPIRED => RELEASED
      case _ => ACTIVE
  }

  lemma SettlementStates(holds: seq<Hold>, holdId: string, status: OrderStatus)
    ensures |Settlement(holds, holdId, status)| == |holds|
    ensures forall k :: 0 <= k < |holds| ==>
      Settlement(holds, holdId, status)[k] == holds[k].(state := HoldStateAfter(holds[k], holdId, status))
  {
  }

  class ApprovedTradeIntent {
    const reservationId: string
    const expectedPrice: real
    const maxSlippageBps: real
    const createdAt: int
    const expiresAt: int
    var state: IntentState

    constructor (i: Intent)
      ensures AsIntent() == i
    {
      reservationId, expectedPrice, maxSlippageBps := i.reservationId, i.expectedPrice, i.maxSlippageBps;
      createdAt, expiresAt, state := i.createdAt, i.expiresAt, i.state;
    }

    function AsIntent(): Intent
      reads `state
    {
      Intent(reservationId, expectedPrice, maxSlippageBps, createdAt, expiresAt, state)
    }
  }

  class PolicyGateway {
    const reservations: RiskReservationManager
    var intents: map<string, ApprovedTradeIntent>
    /** Decisions handed to the execution engine, in order. */
    var submitted: seq<string>

    ghost predicate Valid()
      reads this, reservations
    {
      reservations.Valid() &&
      forall a, b :: a in intents && b in intents && a != b ==> intents[a] != intents[b]
    }

    ghost function Intents(): map<string, Intent>
      reads `intents, intents.Values
    {
      map id | id in intents :: intents[id].AsIntent()
    }

    ghost function View(): World
      requires Valid()
      reads this, reservations, intents.Values, reservations.reservations.Values
    {
      World(Intents(), reservations.View(), submitted)
    }

    constructor (reservations: RiskReservationManager)
      requires reservations.Valid()
      ensures this.reservations == reservations && Valid()
      ensures View() == World(map[], reservations.View(), [])
    {
      this.reservations := reservations;
      intents, submitted := map[], [];
    }

    method SetState(ghost id: string, intent: ApprovedTradeIntent, state: IntentState)
      requires Valid() && id in intents && intents[id] == intent
      modifies intent`state
      ensures Valid()
      ensures View() == old(View()).(intents := old(View()).intents[id := old(View()).intents[id].(state := state)])
    {
      hide RiskReservationManager.View, RiskReservationManager.Valid;
      ghost var was := View();
      intent.state := state;
      assert forall x :: x in intents && x != id ==> intents[x].AsIntent() == was.intents[x];
      assert View().intents == was.intents[id := was.intents[id].(state := state)];
    }

    method Remember(id: string, i: Intent)
      requires Valid()
      modifies `intents
      ensures Valid()
      ensures View() == old(View()).(intents := old(View()).intents[id := i])
      ensures fresh(intents.Values - old(intents.Values))
    {
      hide RiskReservationManager.View, RiskReservationManager.Valid;
      ghost var was := View();
      var intent := new ApprovedTradeIntent(i);
      intents := intents[id := intent];
      assert View().intents == was.intents[id := i];
    }

    /** The last step of `propose`: reserve, and only with a hold in hand remember the intent. */
    method Propose(id: string, holdId: string, p: Proposal, now: int, builtAt: int) returns (approved: bool)
      requires Valid() && holdId !in reservations.reservations
      modifies `intents, reservations, reservations.reservations.Values
      ensures Valid()
      ensures approved == old(Accepted(View(), p, now))
      ensures View() == Proposed(old(View()), id, holdId, p, now, builtAt)
      ensures fresh(intents.Values - old(intents.Values))
    {
      hide LimitRejections, Reserved, Swept, Intents, RiskReservationManager.View, RiskReservationManager.Valid,
        NewIntent;
      var check := reservations.Reserve(p.snapshot, p.req, p.limits, now, holdId);
      approved := check.Approved?;
      if approved {
        Remember(id, NewIntent(p, holdId, builtAt));
      }
    }

    /** An intent passes while it is pending, in time (its last millisecond included) and trading is allowed. */
    method Verify(id: string, now: int, tradingAllowed: bool) returns (verdict: Verdict)
      requires Valid()
      ensures verdict == VerifyPendingIntent(IntentOf(View(), id), now, tradingAllowed)
      ensures verdict.Verified? <==> id in intents && Executable(intents[id].AsIntent(), now) && tradingAllowed
      ensures verdict.NOT_FOUND? <==> id !in intents
      ensures verdict.ALREADY_CONSUMED? <==> id in intents && intents[id].state.CONSUMED?
      ensures verdict.HALTED? <==> id in intents && Executable(intents[id].AsIntent(), now) && !tradingAllowed
    {
      if id !in intents {
        return NOT_FOUND;
      }
      var intent := intents[id];
      if intent.state.CONSUMED? {
        return ALREADY_CONSUMED;
      }
      if intent.state.LAPSED? || now > intent.expiresAt {
        return EXPIRED_INTENT;
      }
      verdict := if tradingAllowed then Verified else HALTED;
    }

    /** A lapsed or halted intent loses its hold. */
    method Lapse(id: string, intent: ApprovedTradeIntent)
      requires Valid() && id in intents && intents[id] == intent
      modifies intent`state, reservations.reservations.Values
      ensures Valid()
      ensures View() == old(View()).(
        intents := old(View()).intents[id := old(View()).intents[id].(state := LAPSED)],
        holds := Settled(old(View()).holds, intent.reservationId, RELEASED))
    {
      hide Intents, RiskReservationManager.View, RiskReservationManager.Valid, Settled;
      SetState(id, intent, LAPSED);
      reservations.Release(intent.reservationId);
    }

    /** Execute an approval: verify, consume it, and only then build and submit. */
    method ExecuteApproved(id: string, now: int, tradingAllowed: bool) returns (verdict: Verdict, thrown: bool)
      requires Valid()
      modifies `submitted, intents.Values, reservations.reservations.Values
      ensures Valid()
      ensures verdict == VerifyPendingIntent(IntentOf(old(View()), id), now, tradingAllowed)
      ensures View() == Executed(old(View()), id, now, tradingAllowed)
      ensures submitted == old(submitted) + if old(HandsOver(View().intents, id, now, tradingAllowed)) then [id] else []
      ensures thrown <==> verdict.Verified? && submitted == old(submitted)
      ensures thrown ==> View().holds == old(View().holds) && intents[id].state == CONSUMED
    {
      thrown := false;
      verdict := Verify(id, now, tradingAllowed);
      hide Settled;
      if verdict.NOT_FOUND? || verdict.ALREADY_CONSUMED? {
        return;
      }
      var intent := intents[id];
      if verdict.EXPIRED_INTENT? || verdict.HALTED? {
        Lapse(id, intent);
        return;
      }
      SetState(id, intent, CONSUMED);
      if Buildable(intent.AsIntent()) {
        Submit(id);
      } else {
        thrown := true;
      }
    }

    method Submit(id: string)
      requires Valid()
      modifies `submitted
      ensures Valid()
      ensures View() == old(View()).(submitted := old(View()).submitted + [id])
    {
      submitted := submitted + [id];
    }

    /** The order came back from the venue: settle the intent's hold. */
    method SettleReservation(holdId: string, status: OrderStatus)
      requires Valid()
      modifies reservations.reservations.Values
      ensures Valid()
      ensures View() == old(View()).(holds := Settlement(old(View()).holds, holdId, status))
      ensures forall k :: 0 <= k < |View().holds| ==>
        View().holds[k].state == HoldStateAfter(old(View()).holds[k], holdId, status)
    {
      hide Intents, RiskReservationManager.View, RiskReservationManager.Valid, Settled, HoldStateAfter;
      SettlementStates(View().holds, holdId, status);
      if status == FILLED || status == POSITION_OPEN {
        reservations.Commit(holdId);
      } else if status == REJECTED || status == CANCELLED || status == EXPIRED {
        reservations.Release(holdId);
      }
    }
  }
}
