/** The approval gateway over every interleaving of proposals, executions, sweeps and settlements. */
module ApprovalTheorems {
  import opened Prelude
  import opened OrderState
  import opened RiskReservations
  import opened PolicyGateway

  datatype Sys = Sys(w: World, clock: int)

  datatype Step =
    | Propose(id: string, holdId: string, p: Proposal, now: int, builtAt: int)
    | Execute(id: string, now: int, tradingAllowed: bool)
    | OtherLane(holdId: string, snapshot: Portfolio, req: Request, limits: Limits, now: int)
    | Sweep(now: int)
    | SettleOrder(id: string, status: OrderStatus)

  /** The last hold placed under `id`. */
  function FindHold(holds: seq<Hold>, id: string): Option<Hold> {
    if holds == [] then None
    else if holds[|holds| - 1].id == id then Some(holds[|holds| - 1])
    else FindHold(holds[..|holds| - 1], id)
  }

  predicate Enabled(s: Sys, step: Step) {
    match step
    case Propose(id, holdId, _, now, builtAt) =>
      s.clock <= now <= builtAt && id !in s.w.intents && FindHold(s.w.holds, holdId).None?
    case Execute(_, now, _) => s.clock <= now
    case OtherLane(holdId, _, _, _, now) => s.clock <= now && FindHold(s.w.holds, holdId).None?
    case Sweep(now) => s.clock <= now
    case SettleOrder(id, _) => id in s.w.intents && s.w.intents[id].state.CONSUMED?
  }

  function Next(s: Sys, step: Step): Sys
    requires Enabled(s, step)
  {
    match step
    case Propose(id, holdId, p, now, builtAt) => Sys(Proposed(s.w, id, holdId, p, now, builtAt), builtAt)
    case Execute(id, now, tradingAllowed) => Sys(Executed(s.w, id, now, tradingAllowed), now)
    case OtherLane(holdId, snapshot, req, limits, now) =>
      Sys(s.w.(holds := Reserved(s.w.holds, snapshot, req, limits, now, holdId)), now)
    case Sweep(now) => Sys(s.w.(holds := Swept(s.w.holds, now)), now)
    case SettleOrder(id, status) =>
      s.(w := s.w.(holds := Settlement(s.w.holds, s.w.intents[id].reservationId, status)))
  }

  ghost predicate IsRun(s: Sys, steps: seq<Step>, t: Sys)
    decreases |steps|
  {
    if steps == [] then s == t else Enabled(s, steps[0]) && IsRun(Next(s, steps[0]), steps[1..], t)
  }

  // ---- how each operation changes one hold ----

  lemma {:induction false} FindSwept(holds: seq<Hold>, now: int, id: string)
    ensures FindHold(Swept(holds, now), id) ==
      match FindHold(holds, id) case None => None case Some(h) => Some(SweptHold(h, now))
  {
    if holds == [] {
    } else {
      assert Swept(holds, now)[..|holds| - 1] == Swept(holds[..|holds| - 1], now);
      FindSwept(holds[..|holds| - 1], now, id);
    }
  }

  function SettledHold(h: Hold, state: HoldState): Hold {
    if h.state.ACTIVE? then h.(state := state) else h
  }

  lemma {:induction false} FindSettled(holds: seq<Hold>, target: string, state: HoldState, id: string)
    ensures FindHold(Settled(holds, target, state), id) ==
      (match FindHold(holds, id)
       case None => None
       case Some(h) => Some(if id == target then SettledHold(h, state) else h))
  {
    if holds == [] {
    } else {
      assert Settled(holds, target, state)[..|holds| - 1] == Settled(holds[..|holds| - 1], target, state);
      FindSettled(holds[..|holds| - 1], target, state, id);
    }
  }

  lemma {:induction false} FindAppended(holds: seq<Hold>, h: Hold, id: string)
    ensures FindHold(holds + [h], id) == if h.id == id then Some(h) else FindHold(holds, id)
  {
    assert (holds + [h])[..|holds|] == holds;
  }

  lemma {:induction false} FindReserved(holds: seq<Hold>, p: Portfolio, req: Request, limits: Limits, now: int,
                                        holdId: string, id: string)
    ensures FindHold(Reserved(holds, p, req, limits, now, holdId), id) ==
      if LimitRejections(p, Swept(holds, now), req, limits) == [] && id == holdId then Some(NewHold(req, holdId, now))
      else match FindHold(holds, id) case None => None case Some(h) => Some(SweptHold(h, now))
  {
    hide LimitRejections, FindHold;
    FindSwept(holds, now, id);
    FindAppended(Swept(holds, now), NewHold(req, holdId, now), id);
  }

  // ---- the invariant ----

  /** An intent and its hold: pending means the hold is active or has run out of time; lapsed means it is not active. */
  ghost predicate IntentOk(s: Sys, id: string) {
    id in s.w.intents ==>
      var i := s.w.intents[id];
      var hold := FindHold(s.w.holds, i.reservationId);
      && hold.Some?
      && (i.state.PENDING? ==>
        hold.value.state.ACTIVE? || (hold.value.state.HOLD_EXPIRED? && hold.value.expiresAt <= s.clock))
      && (i.state.LAPSED? ==> !hold.value.state.ACTIVE?)
  }

  ghost predicate Owned(s: Sys) {
    && (forall id :: IntentOk(s, id))
    && (forall a, b :: a in s.w.intents && b in s.w.intents && a != b ==>
          s.w.intents[a].reservationId != s.w.intents[b].reservationId)
  }

  ghost predicate OncePer(s: Sys) {
    && (forall i :: 0 <= i < |s.w.submitted| ==>
          s.w.submitted[i] in s.w.intents && s.w.intents[s.w.submitted[i]].state.CONSUMED?)
    && (forall i, j :: 0 <= i < j < |s.w.submitted| ==> s.w.submitted[i] != s.w.submitted[j])
  }

  /** What a proposal does to the intents and to the hold each one names. */
  lemma {:induction false} ProposeEffect(s: Sys, id: string, holdId: string, p: Proposal, now: int, builtAt: int,
                                         r: string)
    requires Enabled(s, Propose(id, holdId, p, now, builtAt))
    ensures var t := Next(s, Propose(id, holdId, p, now, builtAt));
      && t.clock == builtAt && s.clock <= now <= builtAt
      && t.w.intents
        == (if Accepted(s.w, p, now) then s.w.intents[id := NewIntent(p, holdId, builtAt)] else s.w.intents)
      && FindHold(t.w.holds, r) ==
           (if Accepted(s.w, p, now) && r == holdId then Some(NewHold(p.req, holdId, now))
            else match FindHold(s.w.holds, r) case None => None case Some(h) => Some(SweptHold(h, now)))
  {
    hide LimitRejections, FindHold, Reserved, Swept, NewHold, NewIntent;
    FindReserved(s.w.holds, p.snapshot, p.req, p.limits, now, holdId, r);
  }

  lemma ProposeKeepsIntent(s: Sys, id: string, holdId: string, p: Proposal, now: int, builtAt: int, x: string)
    requires IntentOk(s, x) && Enabled(s, Propose(id, holdId, p, now, builtAt))
    ensures IntentOk(Next(s, Propose(id, holdId, p, now, builtAt)), x)
    ensures x in s.w.intents ==> s.w.intents[x].reservationId != holdId
  {
    hide FindHold, Next, Accepted;
    var t := Next(s, Propose(id, holdId, p, now, builtAt));
    if x in s.w.intents {
      ProposeEffect(s, id, holdId, p, now, builtAt, s.w.intents[x].reservationId);
    } else {
      ProposeEffect(s, id, holdId, p, now, builtAt, holdId);
    }
  }

  lemma ProposeOwned(s: Sys, id: string, holdId: string, p: Proposal, now: int, builtAt: int)
    requires Owned(s) && Enabled(s, Propose(id, holdId, p, now, builtAt))
    ensures Owned(Next(s, Propose(id, holdId, p, now, builtAt)))
  {
    hide IntentOk, Next, Enabled, Accepted, FindHold;
    ProposeEffect(s, id, holdId, p, now, builtAt, holdId);
    forall x
      ensures IntentOk(Next(s, Propose(id, holdId, p, now, builtAt)), x)
      ensures x in s.w.intents ==> s.w.intents[x].reservationId != holdId
    {
      ProposeKeepsIntent(s, id, holdId, p, now, builtAt, x);
    }
  }

  lemma ExecuteOwned(s: Sys, id: string, now: int, tradingAllowed: bool)
    requires Owned(s) && s.clock <= now
    ensures Owned(Next(s, Execute(id, now, tradingAllowed)))
  {
    var t := Next(s, Execute(id, now, tradingAllowed));
    hide FindHold, Settled;
    forall x
      ensures IntentOk(t, x)
    {
      assert IntentOk(s, x);
      if x in t.w.intents && id in s.w.intents {
        FindSettled(s.w.holds, s.w.intents[id].reservationId, RELEASED, t.w.intents[x].reservationId);
      }
    }
  }

  lemma OtherOwned(s: Sys, step: Step)
    requires Owned(s) && Enabled(s, step) && (step.OtherLane? || step.Sweep? || step.SettleOrder?)
    ensures Owned(Next(s, step))
  {
    var t := Next(s, step);
    hide FindHold, Settled, Swept, Reserved, LimitRejections;
    forall x
      ensures IntentOk(t, x)
    {
      assert IntentOk(s, x);
      if x in s.w.intents {
        var r := s.w.intents[x].reservationId;
        match step
        case OtherLane(holdId, snapshot, req, limits, now) =>
          FindReserved(s.w.holds, snapshot, req, limits, now, holdId, r);
        case Sweep(now) => FindSwept(s.w.holds, now, r);
        case SettleOrder(id, status) =>
          FindSettled(s.w.holds, s.w.intents[id].reservationId, COMMITTED, r);
          FindSettled(s.w.holds, s.w.intents[id].reservationId, RELEASED, r);
      }
    }
  }

  lemma StepKeeps(s: Sys, step: Step)
    requires Owned(s) && OncePer(s) && Enabled(s, step)
    ensures Owned(Next(s, step)) && OncePer(Next(s, step))
  {
    hide Owned, IntentOk;
    match step
    case Propose(id, holdId, p, now, builtAt) => ProposeOwned(s, id, holdId, p, now, builtAt);
    case Execute(id, now, tradingAllowed) => ExecuteOwned(s, id, now, tradingAllowed);
    case _ => OtherOwned(s, step);
  }

  lemma {:induction false} RunKeeps(s: Sys, steps: seq<Step>, t: Sys)
    requires Owned(s) && OncePer(s) && IsRun(s, steps, t)
    ensures Owned(t) && OncePer(t)
    decreases |steps|
  {
    if steps == [] {
    } else {
      StepKeeps(s, steps[0]);
      RunKeeps(Next(s, steps[0]), steps[1..], t);
    }
  }

  function Initial(holds: seq<Hold>, clock: int): Sys {
    Sys(World(map[], holds, []), clock)
  }

  /** Each approved decision reaches `submit` at most once, and only after it was consumed. */
  lemma {:induction false} SubmittedAtMostOnce(holds: seq<Hold>, clock: int, steps: seq<Step>, t: Sys)
    requires IsRun(Initial(holds, clock), steps, t)
    ensures forall i, j :: 0 <= i < j < |t.w.submitted| ==> t.w.submitted[i] != t.w.submitted[j]
    ensures forall i :: 0 <= i < |t.w.submitted| ==>
      t.w.submitted[i] in t.w.intents && t.w.intents[t.w.submitted[i]].state.CONSUMED?
  {
    RunKeeps(Initial(holds, clock), steps, t);
  }

  /** The decisions the run hands over, in order: those whose execution met every condition when it came. */
  ghost function HandedOver(s: Sys, steps: seq<Step>, t: Sys): seq<string>
    requires IsRun(s, steps, t)
    decreases |steps|
  {
    if steps == [] then []
    else
      (if steps[0].Execute? && HandsOver(s.w.intents, steps[0].id, steps[0].now, steps[0].tradingAllowed)
       then [steps[0].id] else [])
      + HandedOver(Next(s, steps[0]), steps[1..], t)
  }

  lemma StepHandsOver(s: Sys, step: Step)
    requires Enabled(s, step)
    ensures Next(s, step).w.submitted == s.w.submitted +
      if step.Execute? && HandsOver(s.w.intents, step.id, step.now, step.tradingAllowed) then [step.id] else []
  {
    hide Settled, Settlement, Reserved, Swept, LimitRejections;
  }

  /** Over any run, exactly these decisions reach `submit`, in this order: no other, and none is skipped. */
  lemma {:induction false} SubmittedExactly(s: Sys, steps: seq<Step>, t: Sys)
    requires IsRun(s, steps, t)
    ensures t.w.submitted == s.w.submitted + HandedOver(s, steps, t)
    decreases |steps|
  {
    hide Next, Enabled, HandsOver;
    if steps == [] {
    } else {
      StepHandsOver(s, steps[0]);
      SubmittedExactly(Next(s, steps[0]), steps[1..], t);
    }
  }

  /**
    The life of an intent: an accepted proposal starts it pending, with the proposal's price and
    tolerance and its own hold; only its execution ends it, as consumed when it is in time and
    trading is allowed and as expired otherwise; nothing else about it ever changes.
   */
  lemma IntentLife(s: Sys, step: Step, id: string)
    requires Enabled(s, step)
    ensures id in s.w.intents ==> id in Next(s, step).w.intents
    ensures id in s.w.intents ==>
      Next(s, step).w.intents[id] == s.w.intents[id].(state := IntentStateNext(step, id, s.w.intents[id]))
    ensures id !in s.w.intents && id in Next(s, step).w.intents ==>
      && step.Propose? && step.id == id && KeepsLimits(step.p.snapshot, s.w.holds, step.p.req, step.p.limits, step.now)
      && Next(s, step).w.intents[id] == Intent(step.holdId, step.p.expectedPrice, step.p.maxSlippageBps,
           step.builtAt, step.builtAt + step.p.intentTtlMs, PENDING)
    ensures step.Propose? && KeepsLimits(step.p.snapshot, s.w.holds, step.p.req, step.p.limits, step.now) ==>
      step.id in Next(s, step).w.intents
  {
    if step.Propose? {
      ApprovedExactly(step.p.snapshot, s.w.holds, step.p.req, step.p.limits, step.now);
    }
    hide Settled, Settlement, Reserved, Swept, LimitRejections, KeepsLimits;
  }

  /**
    The life of a hold: it runs out at its time when any lane sweeps, its intent's failed execution
    releases it, its order's fill commits it and its order's death releases it; an ended hold stays.
   */
  lemma HoldLife(s: Sys, step: Step, k: nat)
    requires Enabled(s, step) && k < |s.w.holds|
    ensures |Next(s, step).w.holds| >= |s.w.holds|
    ensures Next(s, step).w.holds[k] == s.w.holds[k].(state := HoldStateNext(s, step, s.w.holds[k]))
  {
    hide LimitRejections;
    if step.SettleOrder? {
      SettlementStates(s.w.holds, s.w.intents[step.id].reservationId, step.status);
    }
  }

  function IntentStateNext(step: Step, id: string, i: Intent): IntentState {
    if step.Execute? && step.id == id && i.state == PENDING
    then (if step.now <= i.expiresAt && step.tradingAllowed then CONSUMED else LAPSED)
    else i.state
  }

  function HoldStateNext(s: Sys, step: Step, h: Hold): HoldState
    requires Enabled(s, step)
  {
    if h.state != ACTIVE then h.state
    else
      match step
      case Propose(_, _, _, now, _) => if h.expiresAt <= now then HOLD_EXPIRED else ACTIVE
      case OtherLane(_, _, _, _, now) => if h.expiresAt <= now then HOLD_EXPIRED else ACTIVE
      case Sweep(now) => if h.expiresAt <= now then HOLD_EXPIRED else ACTIVE
      case Execute(id, now, tradingAllowed) =>
        if id in s.w.intents && s.w.intents[id].reservationId == h.id && s.w.intents[id].state != CONSUMED &&
           (s.w.intents[id].state == LAPSED || now > s.w.intents[id].expiresAt || !tradingAllowed)
        then RELEASED else ACTIVE
      case SettleOrder(id, status) => HoldStateAfter(h, s.w.intents[id].reservationId, status)
  }

  /** An intent marked expired owns no active hold. */
  lemma {:induction false} LapsedHasNoActiveHold(holds: seq<Hold>, clock: int, steps: seq<Step>, t: Sys, id: string)
    requires IsRun(Initial(holds, clock), steps, t)
    requires id in t.w.intents && t.w.intents[id].state.LAPSED?
    ensures FindHold(t.w.holds, t.w.intents[id].reservationId).Some?
    ensures !FindHold(t.w.holds, t.w.intents[id].reservationId).value.state.ACTIVE?
  {
    RunKeeps(Initial(holds, clock), steps, t);
    assert IntentOk(t, id);
  }

  /** An intent that passes verification owns an active hold, provided it was to expire before its hold. */
  lemma {:induction false} VerifiedOwnsActiveHold(holds: seq<Hold>, clock: int, steps: seq<Step>, t: Sys,
                                                  id: string, now: int, tradingAllowed: bool)
    requires IsRun(Initial(holds, clock), steps, t) && t.clock <= now
    requires VerifyPendingIntent(IntentOf(t.w, id), now, tradingAllowed) == Verified
    requires FindHold(t.w.holds, t.w.intents[id].reservationId).Some? ==>
      t.w.intents[id].expiresAt < FindHold(t.w.holds, t.w.intents[id].reservationId).value.expiresAt
    ensures FindHold(t.w.holds, t.w.intents[id].reservationId).Some?
    ensures FindHold(t.w.holds, t.w.intents[id].reservationId).value.state.ACTIVE?
  {
    RunKeeps(Initial(holds, clock), steps, t);
    assert IntentOk(t, id);
  }

  // ---- intents that are built to expire before their holds ----

  /** A proposal whose intent, built when it is, expires strictly before its hold. */
  predicate ExpiresFirst(step: Step) {
    step.Propose? ==> step.builtAt + step.p.intentTtlMs < step.now + step.p.req.ttlMs.GetOr(DEFAULT_TTL_MS)
  }

  ghost predicate Outlived(s: Sys, id: string) {
    id in s.w.intents ==>
      var hold := FindHold(s.w.holds, s.w.intents[id].reservationId);
      hold.Some? && s.w.intents[id].expiresAt < hold.value.expiresAt
  }

  /** No step but a proposal touches an intent's times, and no step at all a hold's. */
  lemma StepOutlived(s: Sys, step: Step, id: string)
    requires Enabled(s, step) && ExpiresFirst(step) && Outlived(s, id)
    ensures Outlived(Next(s, step), id)
  {
    hide FindHold, Settled, Swept, Reserved, LimitRejections;
    var r := if id in s.w.intents then s.w.intents[id].reservationId else "";
    match step
    case Propose(new_, holdId, p, now, builtAt) =>
      ProposeOutlived(s, new_, holdId, p, now, builtAt, id);
    case Execute(other, now, tradingAllowed) =>
      if other in s.w.intents {
        FindSettled(s.w.holds, s.w.intents[other].reservationId, RELEASED, r);
      }
    case OtherLane(holdId, snapshot, req, limits, now) =>
      FindReserved(s.w.holds, snapshot, req, limits, now, holdId, r);
    case Sweep(now) =>
      FindSwept(s.w.holds, now, r);
    case SettleOrder(other, status) =>
      FindSettled(s.w.holds, s.w.intents[other].reservationId, COMMITTED, r);
      FindSettled(s.w.holds, s.w.intents[other].reservationId, RELEASED, r);
  }

  lemma ProposeOutlived(s: Sys, new_: string, holdId: string, p: Proposal, now: int, builtAt: int, id: string)
    requires Enabled(s, Propose(new_, holdId, p, now, builtAt)) && ExpiresFirst(Propose(new_, holdId, p, now, builtAt))
    requires Outlived(s, id)
    ensures Outlived(Next(s, Propose(new_, holdId, p, now, builtAt)), id)
  {
    hide FindHold, Next, Accepted;
    ProposeEffect(s, new_, holdId, p, now, builtAt,
                  if id in s.w.intents then s.w.intents[id].reservationId else holdId);
  }

  lemma {:induction false} RunOutlived(s: Sys, steps: seq<Step>, t: Sys, id: string)
    requires IsRun(s, steps, t) && Outlived(s, id)
    requires forall i :: 0 <= i < |steps| ==> ExpiresFirst(steps[i])
    ensures Outlived(t, id)
    decreases |steps|
  {
    hide Outlived, Next, Enabled, ExpiresFirst;
    if steps == [] {
    } else {
      StepOutlived(s, steps[0], id);
      RunOutlived(Next(s, steps[0]), steps[1..], t, id);
    }
  }

  /**
    Under any interleaving in which every intent was built to expire before its hold, an intent
    that passes verification still owns an active hold.
   */
  lemma {:induction false} VerifiedAlwaysOwnsActiveHold(holds: seq<Hold>, clock: int, steps: seq<Step>, t: Sys,
                                                        id: string, now: int, tradingAllowed: bool)
    requires IsRun(Initial(holds, clock), steps, t) && t.clock <= now
    requires forall i :: 0 <= i < |steps| ==> ExpiresFirst(steps[i])
    requires VerifyPendingIntent(IntentOf(t.w, id), now, tradingAllowed) == Verified
    ensures FindHold(t.w.holds, t.w.intents[id].reservationId).Some?
    ensures FindHold(t.w.holds, t.w.intents[id].reservationId).value.state.ACTIVE?
  {
    hide FindHold, IsRun, ExpiresFirst;
    RunOutlived(Initial(holds, clock), steps, t, id);
    VerifiedOwnsActiveHold(holds, clock, steps, t, id, now, tradingAllowed);
  }

  /**
    Exactly when the hold outlives the intent: from a fresh approval, some continuation verifies
    the intent on a hold that is no longer active if and only if the intent's time is not
    strictly before the hold's. Equal lifetimes are not enough.
   */
  lemma TtlConditionIsExact(s: Sys, id: string, holdId: string, p: Proposal, now: int, builtAt: int)
    requires Owned(s) && OncePer(s) && Enabled(s, Propose(id, holdId, p, now, builtAt))
    requires Accepted(s.w, p, now) && p.intentTtlMs >= 0
    ensures var t := Next(s, Propose(id, holdId, p, now, builtAt));
      (exists at :: at >= t.clock && Verifiable(t, id, at) && !ActiveAfterSweep(t, id, at))
      <==> builtAt + p.intentTtlMs >= now + p.req.ttlMs.GetOr(DEFAULT_TTL_MS)
  {
    var t := Next(s, Propose(id, holdId, p, now, builtAt));
    hide LimitRejections, FindHold, Reserved, Swept;
    FindReserved(s.w.holds, p.snapshot, p.req, p.limits, now, holdId, holdId);
    assert t.w.intents[id] == NewIntent(p, holdId, builtAt);
    assert FindHold(t.w.holds, holdId) == Some(NewHold(p.req, holdId, now));
    var last := builtAt + p.intentTtlMs;
    assert Verifiable(t, id, last);
    forall at
      ensures ActiveAfterSweep(t, id, at) <==> at < now + p.req.ttlMs.GetOr(DEFAULT_TTL_MS)
    {
      FindSwept(t.w.holds, at, holdId);
    }
  }

  ghost predicate Verifiable(t: Sys, id: string, at: int) {
    VerifyPendingIntent(IntentOf(t.w, id), at, true) == Verified
  }

  /** Is the intent's hold still active when another lane sweeps at `at`? */
  ghost predicate ActiveAfterSweep(t: Sys, id: string, at: int) {
    id in t.w.intents &&
    var hold := FindHold(Swept(t.w.holds, at), t.w.intents[id].reservationId);
    hold.Some? && hold.value.state.ACTIVE?
  }
}
