/** Safety of the order protocol over every run, with crashes, lost writes and rotated logs. */
module LifecycleTheorems {
  import opened Prelude
  import opened OrderState
  import opened Lifecycle

  // ---- which logs rebuild a submittable order ----

  /** `e` shows that the submission of `id` has begun. */
  predicate Begun(e: Event, id: string) {
    (e.OrderTransition? && e.id == id) || e == SubmissionIntent(id)
  }

  predicate IsRegistration(e: Event, id: string) {
    e.OrderRegistered? && e.id == id
  }

  lemma {:induction false} LastRegistrationExists(log: seq<Event>, id: string)
    ensures LastRegistration(log, id).Some? <==> exists i :: 0 <= i < |log| && IsRegistration(log[i], id)
  {
    if log == [] {
    } else {
      var init := log[..|log| - 1];
      LastRegistrationExists(init, id);
      if i :| 0 <= i < |log| && IsRegistration(log[i], id) {
        assert i == |log| - 1 || IsRegistration(init[i], id);
      }
      if i :| 0 <= i < |init| && IsRegistration(init[i], id) {
        assert IsRegistration(log[i], id);
      }
      assert IsRegistration(log[|log| - 1], id) ==> LastRegistration(log, id) == Some(log[|log| - 1]);
    }
  }

  lemma {:induction false} LastTransitionExists(log: seq<Event>, id: string)
    ensures LastTransition(log, id).Some? ==>
      var e := LastTransition(log, id).value; e.OrderTransition? && e.id == id && e in log
    ensures LastTransition(log, id).None? ==> forall i :: 0 <= i < |log| ==>
      !(log[i].OrderTransition? && log[i].id == id)
  {
    if log == [] {
    } else {
      var init := log[..|log| - 1];
      LastTransitionExists(init, id);
      forall i | 0 <= i < |log| && LastTransition(log, id).None?
        ensures !(log[i].OrderTransition? && log[i].id == id)
      {
        assert i == |log| - 1 || log[i] == init[i];
      }
    }
  }

  /** No transition on this log leads to RISK_APPROVED (true of every log the machine writes). */
  ghost predicate NeverBack(log: seq<Event>) {
    forall i :: 0 <= i < |log| && log[i].OrderTransition? ==> log[i].to != RISK_APPROVED && log[i].to != ORDER_INTENT
  }

  /** The exact guard of a revival as RISK_APPROVED: registered, and nothing shows the submission had begun. */
  lemma RevivedApprovedExactly(log: seq<Event>, id: string)
    requires NeverBack(log) && id != ""
    ensures RevivedStatus(log, id) == Some(RISK_APPROVED) <==>
      && (exists i :: 0 <= i < |log| && IsRegistration(log[i], id))
      && (forall i :: 0 <= i < |log| ==> !Begun(log[i], id))
  {
    LastRegistrationExists(log, id);
    LastTransitionExists(log, id);
    var last := LastTransition(log, id);
    if last.Some? {
      var i :| 0 <= i < |log| && log[i] == last.value;
      assert Begun(log[i], id) && last.value.to != RISK_APPROVED;
    } else if HasIntent(log, id) {
      var i :| 0 <= i < |log| && log[i] == SubmissionIntent(id);
      assert Begun(log[i], id);
    }
  }

  /** Some readable part of the log would rebuild `id` as submittable. */
  ghost predicate Approvable(log: seq<Event>, id: string) {
    exists k :: 0 <= k < |log| && IsRegistration(log[k], id) && (forall j :: k <= j < |log| ==> !Begun(log[j], id))
  }

  lemma ApprovableAppend(log: seq<Event>, e: Event, id: string)
    ensures Approvable(log + [e], id) ==> !Begun(e, id) && (IsRegistration(e, id) || Approvable(log, id))
  {
    var all := log + [e];
    if Approvable(all, id) {
      var k :| 0 <= k < |all| && IsRegistration(all[k], id) && (forall j :: k <= j < |all| ==> !Begun(all[j], id));
      assert all[|log|] == e && !Begun(all[|log|], id);
      if k < |log| {
        assert IsRegistration(log[k], id);
        forall j | k <= j < |log|
          ensures !Begun(log[j], id)
        {
          assert all[j] == log[j];
        }
      }
    }
  }

  lemma ApprovableSuffix(log: seq<Event>, from: nat, id: string)
    requires from <= |log|
    ensures Approvable(log[from..], id) ==> Approvable(log, id)
  {
    var tail := log[from..];
    if Approvable(tail, id) {
      var k :| 0 <= k < |tail| && IsRegistration(tail[k], id) && (forall j :: k <= j < |tail| ==> !Begun(tail[j], id));
      assert IsRegistration(log[from + k], id);
      forall j | from + k <= j < |log|
        ensures !Begun(log[j], id)
      {
        assert log[j] == tail[j - from];
      }
    }
  }

  lemma RevivedIsApprovable(log: seq<Event>, id: string)
    requires NeverBack(log)
    requires RevivedStatus(log, id) == Some(RISK_APPROVED)
    ensures Approvable(log, id)
  {
    RevivedApprovedExactly(log, id);
    var k :| 0 <= k < |log| && IsRegistration(log[k], id);
  }

  // ---- at most one venue submission per registration ----

  function Placements(trace: seq<Effect>, id: string): nat {
    if trace == [] then 0
    else Placements(trace[..|trace| - 1], id) + if trace[|trace| - 1] == Placed(id) then 1 else 0
  }

  function Registrations(trace: seq<Effect>, id: string): nat {
    if trace == [] then 0
    else Registrations(trace[..|trace| - 1], id) + if trace[|trace| - 1] == RegisterCall(id) then 1 else 0
  }

  lemma {:induction false} TraceSnoc(trace: seq<Effect>, e: Effect, id: string)
    ensures Placements(trace + [e], id) == Placements(trace, id) + if e == Placed(id) then 1 else 0
    ensures Registrations(trace + [e], id) == Registrations(trace, id) + if e == RegisterCall(id) then 1 else 0
  {
    assert (trace + [e])[..|trace|] == trace;
  }

  /** How many more placements of `id` memory or disk could still lead to. */
  ghost function Pending(s: Sys, id: string): nat {
    (if id in s.cleared then 1 else 0) +
    (if (id in s.orders && s.orders[id] == RISK_APPROVED) || Approvable(s.disk, id) then 1 else 0)
  }

  ghost predicate WithinBudget(s: Sys, id: string) {
    && (id in s.orders ==> s.orders[id] != ORDER_INTENT)
    && NeverBack(s.disk)
    && Placements(s.trace, id) + Pending(s, id) <= Registrations(s.trace, id)
  }

  ghost predicate Budgeted(s: Sys) {
    forall id :: WithinBudget(s, id)
  }

  lemma {:induction false} WriteEffect(s: Sys, e: Event, w: Outcome, id: string)
    ensures var t := Write(s, e, w);
      && t.orders == s.orders && t.cleared == s.cleared
      && Placements(t.trace, id) == Placements(s.trace, id)
      && Registrations(t.trace, id) == Registrations(s.trace, id)
      && (Approvable(t.disk, id) ==>
            if w.Failed? then Approvable(s.disk, id)
            else !Begun(e, id) && (IsRegistration(e, id) || Approvable(s.disk, id)))
      && (NeverBack(s.disk) && (e.OrderTransition? ==> e.to != RISK_APPROVED && e.to != ORDER_INTENT) ==>
        NeverBack(t.disk))
  {
    TraceSnoc(s.trace, Wrote(e), id);
    if w.Written? {
      var all := s.disk + [e];
      ApprovableAppend(s.disk, e, id);
      ApprovableSuffix(all, Min(w.dropped, |s.disk|), id);
    }
  }

  lemma RestartEffect(s: Sys, unread: nat, id: string)
    requires unread <= |s.disk| && NeverBack(s.disk)
    ensures var revived := Revive(s.disk[unread..]);
      && (id in revived ==> revived[id] != ORDER_INTENT)
      && (id in revived && revived[id] == RISK_APPROVED ==> Approvable(s.disk, id))
      && Restarted(s, unread) == s.(orders := revived, cleared := {}, healthy := true)
  {
    var log := s.disk[unread..];
    assert NeverBack(log);
    LastTransitionExists(log, id);
    if id in Revive(log) && Revive(log)[id] == RISK_APPROVED {
      RevivedIsApprovable(log, id);
      ApprovableSuffix(s.disk, unread, id);
    }
  }

  /** Every atomic effect keeps the budget, in durable mode. */
  lemma StepKeepsBudget(s: Sys, step: Step)
    requires Budgeted(s) && Enabled(s, step)
    ensures Budgeted(Next(s, step, true))
  {
    forall id
      ensures WithinBudget(Next(s, step, true), id)
    {
      StepBudgetOf(s, step, id);
    }
  }

  lemma RegisterBudget(s: Sys, x: string, spec: OrderSpec, at: int, w: Outcome, id: string)
    requires Budgeted(s)
    ensures WithinBudget(Next(s, Register(x, spec, at, w), true), id)
  {
    hide Approvable, NeverBack, Placements, Registrations, Write, Restarted;
    assert WithinBudget(s, id);
    TraceSnoc(s.trace, RegisterCall(x), id);
    WriteEffect(s.(orders := s.orders[x := RISK_APPROVED], trace := s.trace + [RegisterCall(x)]),
                OrderRegistered(x, spec, at), w, id);
  }

  lemma SubmitBudget(s: Sys, x: string, orderId: Option<string>, w: Outcome, id: string)
    requires Budgeted(s) && Enabled(s, BeginSubmit(x, orderId, w))
    ensures WithinBudget(Next(s, BeginSubmit(x, orderId, w), true), id)
  {
    hide Approvable, NeverBack, Placements, Registrations, Write, Restarted;
    assert WithinBudget(s, id);
    WriteEffect(s.(orders := s.orders[x := SUBMITTING]), OrderTransition(x, RISK_APPROVED, SUBMITTING, orderId), w, id);
  }

  lemma TransitionBudget(s: Sys, x: string, to: OrderStatus, orderId: Option<string>, w: Outcome, id: string)
    requires Budgeted(s) && Enabled(s, Transition(x, to, orderId, w))
    ensures WithinBudget(Next(s, Transition(x, to, orderId, w), true), id)
  {
    hide Allowed, CanTransition, IsTerminal, Approvable, NeverBack, Placements, Registrations, Write, Restarted;
    assert WithinBudget(s, id) && WithinBudget(s, x);
    NoWayBack(s.orders[x], to);
    WriteEffect(s.(orders := s.orders[x := to]), OrderTransition(x, s.orders[x], to, orderId), w, id);
  }

  lemma OtherBudget(s: Sys, step: Step, id: string)
    requires Budgeted(s) && Enabled(s, step)
    requires step.LogIntent? || step.Place? || step.LogOther? || step.Restart?
    ensures WithinBudget(Next(s, step, true), id)
  {
    hide Approvable, NeverBack, Placements, Registrations, Write, Restarted;
    assert WithinBudget(s, id);
    match step
    case LogIntent(x, w) => WriteEffect(s, SubmissionIntent(x), w, id);
    case Place(x) => TraceSnoc(s.trace, Placed(x), id);
    case LogOther(kind, w) => WriteEffect(s, Other(kind), w, id);
    case Restart(unread) => RestartEffect(s, unread, id);
  }

  lemma StepBudgetOf(s: Sys, step: Step, id: string)
    requires Budgeted(s) && Enabled(s, step)
    ensures WithinBudget(Next(s, step, true), id)
  {
    hide Budgeted, Enabled, Next, WithinBudget;
    match step
    case Register(x, spec, at, w) => RegisterBudget(s, x, spec, at, w, id);
    case BeginSubmit(x, orderId, w) => SubmitBudget(s, x, orderId, w, id);
    case Transition(x, to, orderId, w) => TransitionBudget(s, x, to, orderId, w, id);
    case _ => OtherBudget(s, step, id);
  }

  lemma {:induction false} RunKeepsBudget(s: Sys, steps: seq<Step>, t: Sys)
    requires Budgeted(s) && IsRun(s, steps, true, t)
    ensures Budgeted(t)
    decreases |steps|
  {
    if steps == [] {
    } else {
      StepKeepsBudget(s, steps[0]);
      RunKeepsBudget(Next(s, steps[0], true), steps[1..], t);
    }
  }

  lemma InitialBudgeted()
    ensures Budgeted(Initial())
  {
  }

  /**
    Durable mode: over every run, with crashes anywhere and any readable suffix of the log after
    each, an id reaches the venue at most as often as it was registered.
   */
  lemma {:induction false} NoDoubleSubmission(steps: seq<Step>, t: Sys, id: string)
    requires IsRun(Initial(), steps, true, t)
    ensures Placements(t.trace, id) <= Registrations(t.trace, id)
  {
    InitialBudgeted();
    RunKeepsBudget(Initial(), steps, t);
    assert WithinBudget(t, id);
  }

  /** An id registered once and already placed is never rebuilt as submittable, from any suffix. */
  lemma {:induction false} PlacedIsNeverRevivedApproved(steps: seq<Step>, t: Sys, id: string, unread: nat)
    requires IsRun(Initial(), steps, true, t)
    requires Registrations(t.trace, id) == 1 && Placements(t.trace, id) >= 1
    requires unread <= |t.disk|
    ensures RevivedStatus(t.disk[unread..], id) != Some(RISK_APPROVED)
    ensures id in t.orders ==> t.orders[id] != RISK_APPROVED
    ensures id !in t.cleared
  {
    InitialBudgeted();
    RunKeepsBudget(Initial(), steps, t);
    assert WithinBudget(t, id);
    var log := t.disk[unread..];
    assert NeverBack(log);
    if RevivedStatus(log, id) == Some(RISK_APPROVED) {
      RevivedIsApprovable(log, id);
      ApprovableSuffix(t.disk, unread, id);
    }
  }

  /** Without durability: registered, the transition to SUBMITTING lost, placed all the same. */
  lemma PlacedWithoutTrail(spec: OrderSpec) returns (s3: Sys)
    ensures IsRun(Initial(), [Register("a", spec, 0, Written(0)), BeginSubmit("a", None, Failed), Place("a")],
                  false, s3)
    ensures s3.disk == [OrderRegistered("a", spec, 0)]
    ensures s3.trace == [RegisterCall("a"), Wrote(OrderRegistered("a", spec, 0)), Placed("a")]
  {
    var steps := [Register("a", spec, 0, Written(0)), BeginSubmit("a", None, Failed), Place("a")];
    var s1 := Next(Initial(), steps[0], false);
    var s2 := Next(s1, steps[1], false);
    s3 := Next(s2, steps[2], false);
    assert IsRun(s2, steps[2..], false, s3);
    assert steps[1..][1..] == steps[2..];
    assert IsRun(s1, steps[1..], false, s3);
  }

  /** ... and after a restart the same registration is submitted and placed again. */
  lemma PlacedAgain(s3: Sys, spec: OrderSpec) returns (s6: Sys)
    requires s3.disk == [OrderRegistered("a", spec, 0)]
    ensures IsRun(s3, [Restart(0), BeginSubmit("a", None, Written(0)), Place("a")], false, s6)
    ensures s6.trace == s3.trace + [Wrote(OrderTransition("a", RISK_APPROVED, SUBMITTING, None))] + [Placed("a")]
  {
    var steps := [Restart(0), BeginSubmit("a", None, Written(0)), Place("a")];
    RevivedApprovedExactly(s3.disk, "a");
    assert IsRegistration(s3.disk[0], "a") && s3.disk[0..] == s3.disk;
    var s4 := Next(s3, steps[0], false);
    assert s4.orders["a"] == RISK_APPROVED;
    var s5 := Next(s4, steps[1], false);
    s6 := Next(s5, steps[2], false);
    assert IsRun(s5, steps[2..], false, s6);
    assert steps[1..][1..] == steps[2..];
    assert IsRun(s4, steps[1..], false, s6);
  }

  lemma {:induction false} OneStep(s: Sys, step: Step, durable: bool, t: Sys)
    requires Enabled(s, step) && t == Next(s, step, durable)
    ensures IsRun(s, [step], durable, t)
  {
    hide Next, Enabled;
    assert [step][1..] == [];
    assert IsRun(t, [step][1..], durable, t);
  }

  // ---- one-step runs, stated without the machine's case distinction ----

  lemma {:induction false} RegisterStep(s: Sys, id: string, spec: OrderSpec, at: int, w: Outcome, durable: bool, t: Sys)
    requires t == Write(s.(orders := s.orders[id := RISK_APPROVED], trace := s.trace + [RegisterCall(id)]),
                        OrderRegistered(id, spec, at), w)
    ensures IsRun(s, [Register(id, spec, at, w)], durable, t)
  {
    OneStep(s, Register(id, spec, at, w), durable, t);
  }

  lemma {:induction false} RestartStep(s: Sys, unread: nat, durable: bool, t: Sys)
    requires unread <= |s.disk| && t == Sys(Revive(s.disk[unread..]), {}, s.disk, true, s.trace)
    ensures IsRun(s, [Restart(unread)], durable, t)
  {
    hide Revive;
    OneStep(s, Restart(unread), durable, t);
  }

  lemma {:induction false} TransitionStep(s: Sys, id: string, to: OrderStatus, orderId: Option<string>, w: Outcome,
                                          durable: bool, t: Sys)
    requires id in s.orders && CanTransition(s.orders[id], to)
    requires t == Write(s.(orders := s.orders[id := to]), OrderTransition(id, s.orders[id], to, orderId), w)
    ensures IsRun(s, [Transition(id, to, orderId, w)], durable, t)
  {
    OneStep(s, Transition(id, to, orderId, w), durable, t);
  }

  lemma {:induction false} LogOtherStep(s: Sys, kind: string, w: Outcome, durable: bool, t: Sys)
    requires t == Write(s, Other(kind), w)
    ensures IsRun(s, [LogOther(kind, w)], durable, t)
  {
    OneStep(s, LogOther(kind, w), durable, t);
  }

  lemma {:induction false} LogIntentStep(s: Sys, id: string, w: Outcome, durable: bool, t: Sys)
    requires id in s.cleared && t == Write(s, SubmissionIntent(id), w)
    ensures IsRun(s, [LogIntent(id, w)], durable, t)
  {
    OneStep(s, LogIntent(id, w), durable, t);
  }

  lemma {:induction false} BeginSubmitStep(s: Sys, id: string, orderId: Option<string>, w: Outcome, durable: bool,
                                           t: Sys)
    requires id in s.orders && s.orders[id] == RISK_APPROVED && s.healthy
    requires var u := Write(s.(orders := s.orders[id := SUBMITTING]),
                            OrderTransition(id, RISK_APPROVED, SUBMITTING, orderId), w);
      t == if w.Failed? && durable then u else u.(cleared := u.cleared + {id})
    ensures IsRun(s, [Step.BeginSubmit(id, orderId, w)], durable, t)
  {
    OneStep(s, Step.BeginSubmit(id, orderId, w), durable, t);
  }

  lemma {:induction false} PlaceStep(s: Sys, id: string, durable: bool, t: Sys)
    requires id in s.cleared && t == s.(cleared := s.cleared - {id}, trace := s.trace + [Placed(id)])
    ensures IsRun(s, [Place(id)], durable, t)
  {
    OneStep(s, Place(id), durable, t);
  }

  lemma {:induction false} RunConcat(s: Sys, first: seq<Step>, m: Sys, second: seq<Step>, t: Sys, durable: bool)
    requires IsRun(s, first, durable, m) && IsRun(m, second, durable, t)
    ensures IsRun(s, first + second, durable, t)
    decreases |first|
  {
    if first == [] {
      assert first + second == second;
    } else {
      RunConcat(Next(s, first[0], durable), first[1..], m, second, t, durable);
      assert (first + second)[1..] == first[1..] + second;
    }
  }

  /** Without durability the promise fails: one registration, two placements. */
  lemma NonDurableCanPlaceTwice(spec: OrderSpec)
    ensures exists steps, t ::
      IsRun(Initial(), steps, false, t) && Registrations(t.trace, "a") == 1 && Placements(t.trace, "a") == 2
  {
    hide IsRun, Initial, Registrations, Placements;
    var s3 := PlacedWithoutTrail(spec);
    var s6 := PlacedAgain(s3, spec);
    var first := [Register("a", spec, 0, Written(0)), BeginSubmit("a", None, Failed), Place("a")];
    var second := [Restart(0), BeginSubmit("a", None, Written(0)), Place("a")];
    RunConcat(Initial(), first, s3, second, s6, false);
    CountsOfThree(Wrote(OrderRegistered("a", spec, 0)));
    CountsOfOneMore(s3.trace, Wrote(OrderTransition("a", RISK_APPROVED, SUBMITTING, None)));
  }

  lemma {:induction false} CountsOfOneMore(trace: seq<Effect>, written: Effect)
    requires written.Wrote?
    ensures Placements(trace + [written] + [Placed("a")], "a") == Placements(trace, "a") + 1
    ensures Registrations(trace + [written] + [Placed("a")], "a") == Registrations(trace, "a")
  {
    hide Placements, Registrations;
    TraceSnoc(trace, written, "a");
    TraceSnoc(trace + [written], Placed("a"), "a");
  }

  lemma CountsOfThree(written: Effect)
    requires written.Wrote?
    ensures Placements([RegisterCall("a"), written, Placed("a")], "a") == 1
    ensures Registrations([RegisterCall("a"), written, Placed("a")], "a") == 1
  {
    TraceSnoc([], RegisterCall("a"), "a");
    TraceSnoc([RegisterCall("a")], written, "a");
    TraceSnoc([RegisterCall("a"), written], Placed("a"), "a");
    assert [] + [RegisterCall("a")] == [RegisterCall("a")];
    assert [RegisterCall("a")] + [written] == [RegisterCall("a"), written];
    assert [RegisterCall("a"), written] + [Placed("a")] == [RegisterCall("a"), written, Placed("a")];
  }
}
