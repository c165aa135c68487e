/**
  The audit trail of an order: while writes succeed and ids are fresh, the log is a chain of
  allowed edges that ends at the live status, and a rebuild from it agrees with memory.
 */
module OrderAudit {
  import opened Prelude
  import opened OrderState
  import opened Lifecycle
  import opened LifecycleTheorems

  /** No event of any kind mentions `id`. */
  ghost predicate Unused(log: seq<Event>, id: string) {
    forall i :: 0 <= i < |log| ==> !IsRegistration(log[i], id) && !Begun(log[i], id)
  }

  /** A step that writes what it should, loses nothing, and registers only fresh ids. */
  ghost predicate Clean(s: Sys, step: Step) {
    match step
    case Register(id, _, _, w) => w == Written(0) && id != "" && Unused(s.disk, id)
    case BeginSubmit(_, _, w) => w == Written(0)
    case LogIntent(_, w) => w == Written(0)
    case Place(_) => true
    case Transition(_, _, _, w) => w == Written(0)
    case LogOther(_, w) => w == Written(0)
    case Restart(unread) => unread == 0
  }

  ghost predicate CleanRun(s: Sys, steps: seq<Step>, durable: bool, t: Sys)
    decreases |steps|
  {
    if steps == [] then s == t
    else Enabled(s, steps[0]) && Clean(s, steps[0]) && CleanRun(Next(s, steps[0], durable), steps[1..], durable, t)
  }

  /** The status the log's last transition of `id` names. */
  function LoggedStatus(log: seq<Event>, id: string): OrderStatus {
    if log == [] then RISK_APPROVED
    else
      var e := log[|log| - 1];
      if e.OrderTransition? && e.id == id then e.to else LoggedStatus(log[..|log| - 1], id)
  }

  /** The transitions of `id` on the log form a chain of allowed edges from RISK_APPROVED to `status`. */
  ghost predicate Chain(log: seq<Event>, id: string, status: OrderStatus) {
    if log == [] then status == RISK_APPROVED
    else
      var init, e := log[..|log| - 1], log[|log| - 1];
      if e.OrderTransition? && e.id == id
        then e.to == status && CanTransition(e.from, e.to) && Chain(init, id, e.from)
        else Chain(init, id, status)
  }

  /** SUBMITTING cannot survive a crash: it is read back as UNKNOWN. */
  function AfterCrash(status: OrderStatus): OrderStatus {
    if status == SUBMITTING then UNKNOWN else status
  }

  ghost predicate Registered(log: seq<Event>, id: string) {
    exists i :: 0 <= i < |log| && IsRegistration(log[i], id)
  }

  /** Nothing about `id` precedes its registration. */
  ghost predicate RegisteredFirst(log: seq<Event>, id: string) {
    forall i, j :: 0 <= i < j < |log| && Begun(log[i], id) ==> !IsRegistration(log[j], id)
  }

  ghost predicate Moved(log: seq<Event>, id: string) {
    exists i :: 0 <= i < |log| && log[i].OrderTransition? && log[i].id == id
  }

  /** What memory and the log say about `id` agrees, as far as memory knows `id`. */
  ghost predicate TracedId(s: Sys, id: string) {
    && RegisteredFirst(s.disk, id)
    && (HasIntent(s.disk, id) || id in s.cleared ==> Moved(s.disk, id))
    && (!Registered(s.disk, id) ==> Unused(s.disk, id) && id !in s.orders && id !in s.cleared)
    && (Registered(s.disk, id) ==> id != "")
    && (id in s.orders ==> AfterCrash(s.orders[id]) == AfterCrash(LoggedStatus(s.disk, id)))
    && (Moved(s.disk, id) ==> LoggedStatus(s.disk, id) != RISK_APPROVED && LoggedStatus(s.disk, id) != ORDER_INTENT)
    && (id in s.orders ==> s.orders[id] != ORDER_INTENT)
  }

  /** And memory forgot only terminal orders. */
  ghost predicate AuditedId(s: Sys, id: string) {
    TracedId(s, id) && (Registered(s.disk, id) && id !in s.orders ==> IsTerminal(LoggedStatus(s.disk, id)))
  }

  ghost predicate Audited(s: Sys) {
    forall id :: AuditedId(s, id)
  }

  lemma {:induction false} LoggedIsLastTransition(log: seq<Event>, id: string)
    ensures LastTransition(log, id).Some? <==> Moved(log, id)
    ensures LastTransition(log, id).Some? ==>
      LastTransition(log, id).value.OrderTransition? && LastTransition(log, id).value.to == LoggedStatus(log, id)
    ensures LastTransition(log, id).None? ==> LoggedStatus(log, id) == RISK_APPROVED
  {
    if log == [] {
    } else {
      var init := log[..|log| - 1];
      LoggedIsLastTransition(init, id);
      if i :| 0 <= i < |log| && log[i].OrderTransition? && log[i].id == id {
        assert i == |log| - 1 || init[i] == log[i];
      }
      if i :| 0 <= i < |init| && init[i].OrderTransition? && init[i].id == id {
        assert log[i] == init[i];
      }
    }
  }

  /** What a rebuild makes of a log, in terms of the last logged status. */
  lemma {:induction false} RevivedFromLogged(log: seq<Event>, id: string)
    requires id != "" && (HasIntent(log, id) ==> Moved(log, id))
    requires Moved(log, id) ==> LoggedStatus(log, id) != RISK_APPROVED
    ensures RevivedStatus(log, id) ==
      if Registered(log, id) && !IsTerminal(LoggedStatus(log, id))
      then Some(AfterCrash(LoggedStatus(log, id)))
      else None
  {
    hide Allowed, LastTransition, LastRegistration;
    assert IsTerminal(UNKNOWN) == false && !IsTerminal(SUBMITTING) by { TableFacts(); }
    LastRegistrationExists(log, id);
    LoggedIsLastTransition(log, id);
  }

  lemma TableFacts()
    ensures !IsTerminal(UNKNOWN) && !IsTerminal(SUBMITTING) && !IsTerminal(RISK_APPROVED)
  {
    assert SUBMITTED in Allowed(UNKNOWN) && SUBMITTED in Allowed(SUBMITTING) && SUBMITTING in Allowed(RISK_APPROVED);
  }

  /** Rebuilding from the whole log gives back the live orders, SUBMITTING read as UNKNOWN, terminal ones gone. */
  lemma RebuildAgrees(s: Sys, id: string)
    requires AuditedId(s, id) && id != ""
    ensures RevivedStatus(s.disk, id) ==
      if id in s.orders && !IsTerminal(s.orders[id]) then Some(AfterCrash(s.orders[id])) else None
  {
    hide Allowed, RevivedStatus, LoggedStatus;
    TableFacts();
    RevivedFromLogged(s.disk, id);
    hide IsTerminal;
  }

  // ---- appending one event ----

  lemma {:induction false} SnocFacts(log: seq<Event>, e: Event, id: string)
    ensures Registered(log + [e], id) <==> Registered(log, id) || IsRegistration(e, id)
    ensures Moved(log + [e], id) <==> Moved(log, id) || (e.OrderTransition? && e.id == id)
    ensures HasIntent(log + [e], id) <==> HasIntent(log, id) || e == SubmissionIntent(id)
    ensures Unused(log + [e], id) <==> Unused(log, id) && !IsRegistration(e, id) && !Begun(e, id)
    ensures LoggedStatus(log + [e], id) == if e.OrderTransition? && e.id == id then e.to else LoggedStatus(log, id)
  {
    var all := log + [e];
    assert all[..|log|] == log && all[|log|] == e;
    assert forall i :: 0 <= i < |log| ==> all[i] == log[i];
    if i :| 0 <= i < |log| && IsRegistration(log[i], id) {
      assert IsRegistration(all[i], id);
    }
    if i :| 0 <= i < |log| && log[i].OrderTransition? && log[i].id == id {
      assert all[i].OrderTransition? && all[i].id == id;
    }
    if i :| 0 <= i < |log| && log[i] == SubmissionIntent(id) {
      assert all[i] == SubmissionIntent(id);
    }
  }

  lemma RegisteredFirstSnoc(log: seq<Event>, e: Event, id: string)
    requires RegisteredFirst(log, id)
    requires IsRegistration(e, id) ==> Unused(log, id)
    ensures RegisteredFirst(log + [e], id)
  {
    var all := log + [e];
    forall i, j | 0 <= i < j < |all| && Begun(all[i], id)
      ensures !IsRegistration(all[j], id)
    {
      assert all[i] == log[i];
    }
  }

  /** A step that puts `e` on the log, from a state whose memory already shows it. */
  ghost predicate Writes(s: Sys, t: Sys, e: Event, id: string) {
    && t.disk == s.disk + [e]
    && (IsRegistration(e, id) ==> Unused(s.disk, id) && id != "" && id in t.orders && t.orders[id] == RISK_APPROVED)
    && (e.OrderTransition? && e.id == id ==>
          && id in s.orders && e.from == s.orders[id] && CanTransition(e.from, e.to) && e.to != RISK_APPROVED
          && e.to != ORDER_INTENT && id in t.orders && t.orders[id] == e.to)
    && (e == SubmissionIntent(id) ==> id in s.cleared)
    && (!IsRegistration(e, id) && !(e.OrderTransition? && e.id == id) ==>
          (id in t.orders <==> id in s.orders) && (id in s.orders ==> t.orders[id] == s.orders[id]))
    && (id in t.cleared ==> id in s.cleared || (e.OrderTransition? && e.id == id))
  }

  lemma WriteTraced(s: Sys, t: Sys, e: Event, id: string)
    requires TracedId(s, id) && Writes(s, t, e, id)
    ensures TracedId(t, id)
  {
    hide LoggedStatus, Unused, Registered, Moved, HasIntent, RegisteredFirst, Allowed, CanTransition;
    SnocFacts(s.disk, e, id);
    RegisteredFirstSnoc(s.disk, e, id);
    UnusedMeans(s.disk, id);
  }

  lemma WriteAudited(s: Sys, t: Sys, e: Event, id: string)
    requires AuditedId(s, id) && Writes(s, t, e, id)
    ensures AuditedId(t, id)
  {
    WriteTraced(s, t, e, id);
    hide TracedId, LoggedStatus, Unused, Registered, Moved, HasIntent, RegisteredFirst, Allowed, CanTransition;
    SnocFacts(s.disk, e, id);
  }

  /** The event a step other than a venue call or a restart puts on the log. */
  function EventOf(s: Sys, step: Step): Event
    requires Enabled(s, step) && !step.Place? && !step.Restart?
  {
    match step
    case Register(x, spec, at, _) => OrderRegistered(x, spec, at)
    case BeginSubmit(x, orderId, _) => OrderTransition(x, RISK_APPROVED, SUBMITTING, orderId)
    case LogIntent(x, _) => SubmissionIntent(x)
    case Transition(x, to, orderId, _) => OrderTransition(x, s.orders[x], to, orderId)
    case LogOther(kind, _) => Other(kind)
  }

  /** Everything ever written, whatever has been rotated away since. */
  function Logged(trace: seq<Effect>): seq<Event> {
    if trace == [] then []
    else
      var e := trace[|trace| - 1];
      if e.Wrote? then Logged(trace[..|trace| - 1]) + [e.e] else Logged(trace[..|trace| - 1])
  }

  lemma {:induction false} LoggedSnoc(trace: seq<Effect>, e: Effect)
    ensures Logged(trace + [e]) == if e.Wrote? then Logged(trace) + [e.e] else Logged(trace)
  {
    assert (trace + [e])[..|trace|] == trace;
  }

  /** The state with a log that never rotates. */
  function Unrotated(s: Sys): Sys {
    s.(disk := Logged(s.trace))
  }

  /** A step whose write succeeds, rotating what it likes, and that registers only ids never written about. */
  ghost predicate Loud(s: Sys, step: Step) {
    match step
    case Register(id, _, _, w) => w.Written? && id != "" && Unused(Logged(s.trace), id)
    case BeginSubmit(_, _, w) => w.Written?
    case LogIntent(_, w) => w.Written?
    case Place(_) => true
    case Transition(_, _, _, w) => w.Written?
    case LogOther(_, w) => w.Written?
    case Restart(_) => true
  }

  ghost predicate LoudRun(s: Sys, steps: seq<Step>, durable: bool, t: Sys)
    decreases |steps|
  {
    if steps == [] then s == t
    else Enabled(s, steps[0]) && Loud(s, steps[0]) && LoudRun(Next(s, steps[0], durable), steps[1..], durable, t)
  }

  /** What a loud write does to the trace. */
  lemma {:induction false} LoudTrace(s: Sys, step: Step, durable: bool)
    requires Enabled(s, step) && Loud(s, step)
    ensures Logged(Next(s, step, durable).trace) ==
      if step.Place? || step.Restart? then Logged(s.trace) else Logged(s.trace) + [EventOf(s, step)]
  {
    hide Logged, Unused, CanTransition, Appended, Restarted;
    var t := Next(s, step, durable);
    match step
    case Register(x, _, _, _) =>
      LoggedSnoc(s.trace, RegisterCall(x));
      LoggedSnoc(s.trace + [RegisterCall(x)], Wrote(EventOf(s, step)));
    case Place(x) => LoggedSnoc(s.trace, Placed(x));
    case Restart(_) => RestartKeepsTrace(s, step.unread);
    case _ => LoggedSnoc(s.trace, Wrote(EventOf(s, step)));
  }

  lemma RestartKeepsTrace(s: Sys, unread: nat)
    requires unread <= |s.disk|
    ensures Restarted(s, unread).trace == s.trace
  {
  }

  lemma StartEdge()
    ensures CanTransition(RISK_APPROVED, SUBMITTING)
  {
  }

  lemma RegisterWrites(s: Sys, step: Step, durable: bool, id: string)
    requires step.Register? && Loud(s, step)
    ensures Writes(Unrotated(s), Unrotated(Next(s, step, durable)), EventOf(s, step), id)
  {
    LoudTrace(s, step, durable);
    hide Unused, Logged, Appended;
  }

  lemma SubmitWrites(s: Sys, step: Step, durable: bool, id: string)
    requires step.BeginSubmit? && Enabled(s, step) && Loud(s, step)
    ensures Writes(Unrotated(s), Unrotated(Next(s, step, durable)), EventOf(s, step), id)
  {
    LoudTrace(s, step, durable);
    StartEdge();
    hide Unused, CanTransition, Allowed, Logged, Appended;
  }

  lemma TransitionWrites(s: Sys, step: Step, durable: bool, id: string)
    requires step.Transition? && Enabled(s, step) && Loud(s, step) && s.orders[step.id] != ORDER_INTENT
    ensures Writes(Unrotated(s), Unrotated(Next(s, step, durable)), EventOf(s, step), id)
  {
    LoudTrace(s, step, durable);
    NoWayBack(s.orders[step.id], step.to);
    hide Unused, CanTransition, Allowed, Logged, Appended;
  }

  lemma LogWrites(s: Sys, step: Step, durable: bool, id: string)
    requires (step.LogIntent? || step.LogOther?) && Enabled(s, step) && Loud(s, step)
    ensures Writes(Unrotated(s), Unrotated(Next(s, step, durable)), EventOf(s, step), id)
  {
    LoudTrace(s, step, durable);
    hide Unused, Logged, Appended;
  }

  /** Every loud step that logs is a write on the unrotated log, for every id. */
  lemma StepWrites(s: Sys, step: Step, durable: bool, id: string)
    requires Enabled(s, step) && Loud(s, step) && !step.Place? && !step.Restart?
    requires step.Transition? ==> s.orders[step.id] != ORDER_INTENT
    ensures Writes(Unrotated(s), Unrotated(Next(s, step, durable)), EventOf(s, step), id)
  {
    hide Writes, Next, Loud, EventOf, Unrotated, Enabled;
    match step
    case Register(_, _, _, _) => RegisterWrites(s, step, durable, id);
    case BeginSubmit(_, _, _) => SubmitWrites(s, step, durable, id);
    case Transition(_, _, _, _) =>
      assert Enabled(s, step);
      TransitionWrites(s, step, durable, id);
    case _ => LogWrites(s, step, durable, id);
  }

  lemma {:induction false} UnusedMeans(log: seq<Event>, id: string)
    ensures Unused(log, id) ==>
      !Registered(log, id) && !Moved(log, id) && !HasIntent(log, id) && LoggedStatus(log, id) == RISK_APPROVED
  {
    LoggedIsLastTransition(log, id);
  }

  lemma RestartAudited(s: Sys, id: string)
    requires AuditedId(s, id)
    ensures AuditedId(Restarted(s, 0), id)
  {
    assert s.disk[0..] == s.disk;
    if id != "" {
      RebuildAgrees(s, id);
    }
    ReviveMeans(s.disk, id);
    TableFacts();
    hide Allowed, LoggedStatus, RevivedStatus, Registered, Moved, HasIntent, Unused, RegisteredFirst, Revive;
  }

  lemma ReviveMeans(log: seq<Event>, id: string)
    ensures id in Revive(log) <==> Registered(log, id) && RevivedStatus(log, id).Some?
    ensures id in Revive(log) ==> Revive(log)[id] == RevivedStatus(log, id).value
  {
    LastRegistrationExists(log, id);
    if Registered(log, id) && RevivedStatus(log, id).Some? {
      var i :| 0 <= i < |log| && IsRegistration(log[i], id);
      assert log[i].id in Revive(log);
    }
  }

  /** Nothing was rotated away or lost: the file is everything ever written. */
  ghost predicate Complete(s: Sys) {
    s.disk == Logged(s.trace)
  }

  lemma CleanIsLoud(s: Sys, step: Step, durable: bool)
    requires Complete(s) && Enabled(s, step) && Clean(s, step)
    ensures Loud(s, step) && Complete(Next(s, step, durable))
  {
    LoudTrace(s, step, durable);
    hide Unused, CanTransition, Logged, Restarted, Revive;
    if step.Restart? {
      RestartKeepsTrace(s, 0);
      RestartKeepsDisk(s, 0);
    } else if !step.Place? {
      assert Appended(s.disk, EventOf(s, step), 0) == s.disk + [EventOf(s, step)];
    }
  }

  lemma RestartKeepsDisk(s: Sys, unread: nat)
    requires unread <= |s.disk|
    ensures Restarted(s, unread).disk == s.disk
  {
  }

  lemma StepAudited(s: Sys, step: Step, durable: bool, id: string)
    requires Audited(s) && Complete(s) && Enabled(s, step) && Clean(s, step)
    ensures AuditedId(Next(s, step, durable), id)
  {
    CleanIsLoud(s, step, durable);
    assert AuditedId(s, id);
    if step.Restart? {
      RestartAudited(s, id);
    } else if step.Place? {
      PlaceAudited(s, step.id, id);
    } else {
      assert step.Transition? ==> AuditedId(s, step.id) && s.orders[step.id] != ORDER_INTENT;
      hide AuditedId, Next, Writes, Clean, Loud;
      StepWrites(s, step, durable, id);
      WriteAudited(s, Next(s, step, durable), EventOf(s, step), id);
    }
  }

  lemma PlaceAudited(s: Sys, x: string, id: string)
    requires AuditedId(s, id)
    ensures AuditedId(s.(cleared := s.cleared - {x}, trace := s.trace + [Placed(x)]), id)
  {
  }

  lemma {:induction false} CleanRunAudited(s: Sys, steps: seq<Step>, durable: bool, t: Sys)
    requires Audited(s) && Complete(s) && CleanRun(s, steps, durable, t)
    ensures Audited(t) && Complete(t)
    decreases |steps|
  {
    if steps == [] {
    } else {
      hide AuditedId, Next, Enabled, Clean, Complete;
      CleanIsLoud(s, steps[0], durable);
      forall id
        ensures AuditedId(Next(s, steps[0], durable), id)
      {
        StepAudited(s, steps[0], durable, id);
      }
      CleanRunAudited(Next(s, steps[0], durable), steps[1..], durable, t);
    }
  }

  lemma InitialAudited()
    ensures Audited(Initial()) && Complete(Initial())
  {
  }

  /**
    Over every clean run, restarts included: rebuilding from the full log gives the live status of
    every order, SUBMITTING read as UNKNOWN, and brings no terminal order back.
   */
  lemma {:induction false} RebuildEqualsLive(steps: seq<Step>, durable: bool, t: Sys, id: string)
    requires CleanRun(Initial(), steps, durable, t) && id != ""
    ensures RevivedStatus(t.disk, id) ==
      if id in t.orders && !IsTerminal(t.orders[id]) then Some(AfterCrash(t.orders[id])) else None
  {
    InitialAudited();
    CleanRunAudited(Initial(), steps, durable, t);
    assert AuditedId(t, id);
    RebuildAgrees(t, id);
  }

  // ---- the chain of edges within one run ----

  ghost predicate NoRestart(steps: seq<Step>) {
    forall i :: 0 <= i < |steps| ==> !steps[i].Restart?
  }

  /** Within one process: the log chains up to memory, and memory forgets nothing it registered. */
  ghost predicate ChainedId(s: Sys, id: string) {
    && (Registered(s.disk, id) ==> id in s.orders)
    && (id in s.orders ==> Chain(s.disk, id, s.orders[id]))
  }

  lemma {:induction false} ChainOfUnused(log: seq<Event>, id: string)
    requires Unused(log, id)
    ensures Chain(log, id, RISK_APPROVED)
  {
    if log == [] {
    } else {
      var init, e := log[..|log| - 1], log[|log| - 1];
      assert !Begun(e, id);
      assert Unused(init, id);
      ChainOfUnused(init, id);
    }
  }

  lemma {:induction false} ChainSnoc(log: seq<Event>, e: Event, id: string, before: OrderStatus, after: OrderStatus)
    requires Chain(log, id, before)
    requires if e.OrderTransition? && e.id == id
      then e.from == before && e.to == after && CanTransition(before, after) else after == before
    ensures Chain(log + [e], id, after)
  {
    assert (log + [e])[..|log|] == log;
  }

  lemma WriteChained(s: Sys, t: Sys, e: Event, id: string)
    requires ChainedId(s, id) && Writes(s, t, e, id)
    ensures ChainedId(t, id)
  {
    hide Chain, Registered, Moved, HasIntent, Unused, LoggedStatus, CanTransition;
    SnocFacts(s.disk, e, id);
    if IsRegistration(e, id) {
      ChainOfUnused(s.disk, id);
      ChainSnoc(s.disk, e, id, RISK_APPROVED, RISK_APPROVED);
    } else if id in s.orders {
      ChainSnoc(s.disk, e, id, s.orders[id], t.orders[id]);
    }
  }

  lemma StepChained(s: Sys, step: Step, durable: bool, id: string)
    requires Audited(s) && Complete(s) && Enabled(s, step) && Clean(s, step) && !step.Restart?
    requires ChainedId(s, id)
    ensures ChainedId(Next(s, step, durable), id)
  {
    CleanIsLoud(s, step, durable);
    if !step.Place? {
      assert step.Transition? ==> AuditedId(s, step.id) && s.orders[step.id] != ORDER_INTENT;
      hide AuditedId, ChainedId, Next, Writes, Clean, Loud;
      StepWrites(s, step, durable, id);
      WriteChained(s, Next(s, step, durable), EventOf(s, step), id);
    }
  }

  lemma {:induction false} RunChained(s: Sys, steps: seq<Step>, durable: bool, t: Sys, id: string)
    requires Audited(s) && Complete(s) && CleanRun(s, steps, durable, t) && NoRestart(steps) && ChainedId(s, id)
    ensures ChainedId(t, id)
    decreases |steps|
  {
    if steps == [] {
    } else {
      hide ChainedId, Next, Enabled, Clean, Audited, Complete;
      StepChained(s, steps[0], durable, id);
      OneClean(s, steps[0], durable);
      CleanRunAudited(s, [steps[0]], durable, Next(s, steps[0], durable));
      RunChained(Next(s, steps[0], durable), steps[1..], durable, t, id);
    }
  }

  lemma {:induction false} OneClean(s: Sys, step: Step, durable: bool)
    requires Enabled(s, step) && Clean(s, step)
    ensures CleanRun(s, [step], durable, Next(s, step, durable))
  {
    hide Enabled, Clean, Next;
    assert [step][1..] == [];
    assert CleanRun(Next(s, step, durable), [step][1..], durable, Next(s, step, durable));
  }

  /**
    Within one run the logged transitions of every live order start at RISK_APPROVED, each `from`
    is the previous `to`, every edge is allowed, and the last `to` is the live status.
   */
  lemma {:induction false} AuditChain(steps: seq<Step>, durable: bool, t: Sys, id: string)
    requires CleanRun(Initial(), steps, durable, t) && NoRestart(steps)
    requires id in t.orders
    ensures Chain(t.disk, id, t.orders[id])
  {
    assert ChainedId(Initial(), id);
    InitialAudited();
    RunChained(Initial(), steps, durable, t, id);
  }

  // ---- terminal orders stay terminal, whatever is rotated away or left unread ----

  /** The file is what is left of everything written, and memory agrees with everything written. */
  ghost predicate Traced(s: Sys) {
    && (exists cut :: 0 <= cut <= |Logged(s.trace)| && s.disk == Logged(s.trace)[cut..])
    && (forall id :: TracedId(Unrotated(s), id))
  }

  /** A part of a log that still shows the registration of `id` shows everything about it. */
  lemma {:induction false} SuffixShowsAll(log: seq<Event>, from: nat, id: string)
    requires from <= |log| && RegisteredFirst(log, id) && Registered(log[from..], id)
    ensures Moved(log[from..], id) <==> Moved(log, id)
    ensures HasIntent(log[from..], id) ==> HasIntent(log, id)
    ensures LoggedStatus(log[from..], id) == LoggedStatus(log, id)
  {
    var tail := log[from..];
    var j :| 0 <= j < |tail| && IsRegistration(tail[j], id);
    assert IsRegistration(log[from + j], id);
    if i :| 0 <= i < |tail| && tail[i].OrderTransition? && tail[i].id == id {
      assert log[from + i].OrderTransition? && log[from + i].id == id;
    }
    if i :| 0 <= i < |log| && log[i].OrderTransition? && log[i].id == id {
      assert Begun(log[i], id) && i >= from + j;
      assert tail[i - from] == log[i];
    }
    if i :| 0 <= i < |tail| && tail[i] == SubmissionIntent(id) {
      assert log[from + i] == SubmissionIntent(id);
    }
    hide LoggedStatus;
    SuffixStatus(log, from, id);
    LoggedIsLastTransition(tail, id);
    LoggedIsLastTransition(log, id);
  }

  /** What a restart from any part of the log revives, in terms of everything written. */
  lemma {:induction false} RevivedFromSuffix(s: Sys, from: nat, id: string)
    requires TracedId(s, id) && from <= |s.disk|
    ensures RevivedStatus(s.disk[from..], id).Some? ==>
      && Registered(s.disk, id) && !IsTerminal(LoggedStatus(s.disk, id))
      && RevivedStatus(s.disk[from..], id).value == AfterCrash(LoggedStatus(s.disk, id))
  {
    var tail := s.disk[from..];
    LastRegistrationExists(tail, id);
    if Registered(tail, id) && id != "" {
      SuffixShowsAll(s.disk, from, id);
      SuffixRegistered(s.disk, from, id);
      hide RevivedStatus, Registered, Moved, HasIntent, LoggedStatus, IsTerminal;
      RevivedFromLogged(tail, id);
    }
  }

  lemma SuffixRegistered(log: seq<Event>, from: nat, id: string)
    requires from <= |log| && Registered(log[from..], id)
    ensures Registered(log, id)
  {
    var j :| 0 <= j < |log[from..]| && IsRegistration(log[from..][j], id);
    assert IsRegistration(log[from + j], id);
  }

  /** Memory rebuilt from a part of everything written agrees with everything written. */
  lemma RebuiltTraced(all: Sys, t: Sys, from: nat, id: string)
    requires TracedId(all, id) && from <= |all.disk| && t.disk == all.disk && t.cleared == {}
    requires id in t.orders ==> RevivedStatus(all.disk[from..], id) == Some(t.orders[id])
    ensures TracedId(t, id)
  {
    RevivedFromSuffix(all, from, id);
    NotStart(LoggedStatus(all.disk, id));
    LoggedIsLastTransition(all.disk, id);
    hide Registered, Moved, HasIntent, Unused, RegisteredFirst, LoggedStatus, RevivedStatus, IsTerminal, Allowed,
      AfterCrash, LastTransition;
  }

  lemma RestartTracedAt(s: Sys, unread: nat, cut: nat, id: string)
    requires unread <= |s.disk| && cut <= |Logged(s.trace)| && s.disk == Logged(s.trace)[cut..]
    requires TracedId(Unrotated(s), id)
    ensures TracedId(Unrotated(Restarted(s, unread)), id)
  {
    hide Logged, TracedId, RevivedStatus, Revive;
    var tail := s.disk[unread..];
    assert tail == Logged(s.trace)[cut + unread..];
    var t := Restarted(s, unread);
    assert t.orders == Revive(tail) && t.cleared == {} && t.trace == s.trace;
    hide Restarted;
    ReviveMeans(tail, id);
    RebuiltTraced(Unrotated(s), Unrotated(t), cut + unread, id);
  }

  lemma RestartTraced(s: Sys, unread: nat, id: string)
    requires Traced(s) && unread <= |s.disk|
    ensures TracedId(Unrotated(Restarted(s, unread)), id)
  {
    hide Logged, TracedId, Restarted, Unrotated;
    var cut :| 0 <= cut <= |Logged(s.trace)| && s.disk == Logged(s.trace)[cut..];
    RestartTracedAt(s, unread, cut, id);
  }

  lemma NotStart(status: OrderStatus)
    ensures AfterCrash(AfterCrash(status)) == AfterCrash(status)
    ensures status != ORDER_INTENT ==> AfterCrash(status) != ORDER_INTENT
  {
  }

  lemma StepTraced(s: Sys, step: Step, durable: bool, id: string)
    requires Traced(s) && Enabled(s, step) && Loud(s, step)
    ensures TracedId(Unrotated(Next(s, step, durable)), id)
  {
    LoudTrace(s, step, durable);
    assert TracedId(Unrotated(s), id);
    if step.Restart? {
      RestartTraced(s, step.unread, id);
    } else if step.Place? {
      PlaceTraced(s, step.id, id);
    } else {
      assert step.Transition? ==> TracedId(Unrotated(s), step.id) && s.orders[step.id] != ORDER_INTENT;
      hide TracedId, Next, Writes, Loud;
      StepWrites(s, step, durable, id);
      WriteTraced(Unrotated(s), Unrotated(Next(s, step, durable)), EventOf(s, step), id);
    }
  }

  lemma PlaceTraced(s: Sys, x: string, id: string)
    requires TracedId(Unrotated(s), id)
    ensures TracedId(Unrotated(s.(cleared := s.cleared - {x}, trace := s.trace + [Placed(x)])), id)
  {
    LoggedSnoc(s.trace, Placed(x));
    hide Logged;
  }

  /** Appending and rotating keeps what is left a part of everything written. */
  lemma AppendedIsSuffix(all: seq<Event>, disk: seq<Event>, e: Event, dropped: nat)
    requires exists cut :: 0 <= cut <= |all| && disk == all[cut..]
    ensures exists cut :: 0 <= cut <= |all + [e]| && Appended(disk, e, dropped) == (all + [e])[cut..]
  {
    var cut :| 0 <= cut <= |all| && disk == all[cut..];
    assert Appended(disk, e, dropped) == (all + [e])[cut + Min(dropped, |disk|)..];
  }

  lemma StepKeepsSuffix(s: Sys, step: Step, durable: bool)
    requires Traced(s) && Enabled(s, step) && Loud(s, step)
    ensures var t := Next(s, step, durable);
      exists cut :: 0 <= cut <= |Logged(t.trace)| && t.disk == Logged(t.trace)[cut..]
  {
    LoudTrace(s, step, durable);
    hide Logged, Unused, CanTransition, Restarted, TracedId, Appended;
    if step.Restart? {
      RestartKeepsDisk(s, step.unread);
    } else if !step.Place? {
      var e := EventOf(s, step);
      AppendedIsSuffix(Logged(s.trace), s.disk, e, step.w.dropped);
    }
  }

  /** Everything written has a registration of `id` and ends, for `id`, in a terminal status. */
  ghost predicate Finished(s: Sys, id: string) {
    Registered(Logged(s.trace), id) && IsTerminal(LoggedStatus(Logged(s.trace), id))
  }

  lemma {:induction false} StepKeepsFinished(s: Sys, step: Step, durable: bool, id: string)
    requires Traced(s) && Enabled(s, step) && Loud(s, step) && Finished(s, id)
    ensures Finished(Next(s, step, durable), id)
    ensures LoggedStatus(Logged(Next(s, step, durable).trace), id) == LoggedStatus(Logged(s.trace), id)
  {
    LoudTrace(s, step, durable);
    assert TracedId(Unrotated(s), id);
    TableFacts();
    if step.Transition? {
      NoWayBack(s.orders[step.id], step.to);
    }
    if !step.Place? && !step.Restart? {
      SnocFacts(Logged(s.trace), EventOf(s, step), id);
    }
    hide Next, Logged, Registered, Moved, HasIntent, Unused, LoggedStatus, Allowed, RegisteredFirst, CanTransition;
  }

  lemma {:induction false} RunKeepsFinished(s: Sys, steps: seq<Step>, durable: bool, t: Sys, id: string)
    requires Traced(s) && LoudRun(s, steps, durable, t)
    ensures Traced(t)
    ensures Finished(s, id) ==>
      Finished(t, id) && LoggedStatus(Logged(t.trace), id) == LoggedStatus(Logged(s.trace), id)
    decreases |steps|
  {
    if steps == [] {
    } else {
      hide TracedId, Finished, Next, Enabled, Loud, Logged;
      var m := Next(s, steps[0], durable);
      forall x
        ensures TracedId(Unrotated(m), x)
      {
        StepTraced(s, steps[0], durable, x);
      }
      StepKeepsSuffix(s, steps[0], durable);
      if Finished(s, id) {
        StepKeepsFinished(s, steps[0], durable, id);
      }
      RunKeepsFinished(m, steps[1..], durable, t, id);
    }
  }

  lemma {:induction false} SuffixStatus(log: seq<Event>, from: nat, id: string)
    requires from <= |log|
    ensures Moved(log[from..], id) ==> LoggedStatus(log[from..], id) == LoggedStatus(log, id)
  {
    var tail := log[from..];
    if tail == [] {
    } else {
      var init := log[..|log| - 1];
      assert tail[..|tail| - 1] == init[from..];
      SuffixStatus(init, from, id);
      SnocFacts(init[from..], tail[|tail| - 1], id);
      assert tail == init[from..] + [tail[|tail| - 1]];
    }
  }

  /** No readable part of what is left of the log brings a finished order back. */
  lemma NoSuffixRevivesTerminal(s: Sys, id: string, from: nat)
    requires Traced(s) && Finished(s, id) && from <= |s.disk|
    ensures RevivedStatus(s.disk[from..], id).None?
  {
    hide Logged, TracedId, Registered, LoggedStatus, RevivedStatus, IsTerminal, AfterCrash;
    var cut :| 0 <= cut <= |Logged(s.trace)| && s.disk == Logged(s.trace)[cut..];
    PartOfPart(Logged(s.trace), s.disk, cut, from);
    RevivedFromSuffix(Unrotated(s), cut + from, id);
  }

  lemma PartOfPart(all: seq<Event>, disk: seq<Event>, cut: nat, from: nat)
    requires cut <= |all| && disk == all[cut..] && from <= |disk|
    ensures disk[from..] == all[cut + from..]
  {
  }

  lemma InitialTraced()
    ensures Traced(Initial())
  {
    InitialAudited();
    hide TracedId, Logged, LoggedStatus, Registered;
    var none: seq<Event> := [];
    assert none[0..] == none;
    assert Logged(Initial().trace)[0..] == Initial().disk;
    forall id
      ensures TracedId(Unrotated(Initial()), id)
    {
      assert AuditedId(Initial(), id);
    }
  }

  /**
    Over every run whose writes succeed and whose ids are fresh, with any rotation and any part of
    the log unread at each restart: an order that was terminal at some point is never in any other
    status later, and nothing readable of any later log revives it.
   */
  lemma {:induction false} TerminalForever(before: seq<Step>, after: seq<Step>, durable: bool, m: Sys, t: Sys,
                                           id: string, from: nat)
    requires LoudRun(Initial(), before, durable, m) && LoudRun(m, after, durable, t)
    requires id in m.orders && IsTerminal(m.orders[id])
    requires from <= |t.disk|
    ensures id in t.orders ==> t.orders[id] == m.orders[id]
    ensures RevivedStatus(t.disk[from..], id).None?
  {
    InitialTraced();
    RunKeepsFinished(Initial(), before, durable, m, id);
    TableFacts();
    assert TracedId(Unrotated(m), id);
    hide Allowed;
    assert LoggedStatus(Logged(m.trace), id) == m.orders[id];
    RunKeepsFinished(m, after, durable, t, id);
    assert TracedId(Unrotated(t), id);
    NoSuffixRevivesTerminal(t, id, from);
  }
}
