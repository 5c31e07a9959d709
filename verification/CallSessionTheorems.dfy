/** The promises of tool calls over every interleaving of any number of calls and approval transactions. */
module CallSessionTheorems {
  import opened Common
  import opened Text
  import opened ExecutionDomain
  import opened GatewayStore
  import opened GatewayInvariant
  import opened CallSession
  import opened CallSessionInvariant

  // ------------------------------------------------------------- invariant

  ghost predicate AllTell(sys: System, cfg: Settings) {
    sys.sessions.Keys == sys.db.executions.Keys && (forall e <- sys.sessions :: Tells(sys.db, e, sys.sessions[e], cfg))
  }

  ghost predicate CallsLogged(sys: System) {
    && (forall e <- sys.sessions :: multiset(sys.calls)[e] == sys.sessions[e].sent)
    && (forall e <- sys.calls :: e in sys.sessions)
  }

  ghost predicate SystemInv(sys: System, cfg: Settings) {
    Inv(sys.db) && AllTell(sys, cfg) && CallsLogged(sys)
  }

  lemma SameCallsTell(before: Db, after: Db, e: string, s: Session, cfg: Settings)
    requires after.executions == before.executions && after.attempts == before.attempts && Tells(before, e, s, cfg)
    ensures Tells(after, e, s, cfg)
  {
  }

  /** Approval transactions, and plans that fail, leave executions and attempts alone. */
  lemma ApprovalStepSameCalls(before: Db, after: Db, id: string)
    requires ApprovalStep(before, after, id)
    ensures after.executions == before.executions && after.attempts == before.attempts
  {
  }

  lemma OutsideSameCalls(db: Db, step: Step)
    requires RowsWellFormed(db) && Outside(step)
    ensures Apply(db, step).executions == db.executions && Apply(db, step).attempts == db.attempts
  {
    hide RowsWellFormed, ApprovalStep, RequestTx, DecideTx, ConsumeTx;
    match step
    case Request(cmd, ttl, id, auditId, now) =>
      RequestSteps(db, cmd, ttl, id, auditId, now);
      ApprovalStepSameCalls(db, Apply(db, step), id);
    case DecideOn(tenant, approvalId, approver, approved, auditId, now) =>
      DecideSteps(db, tenant, approvalId, approver, approved, auditId, now);
      ApprovalStepSameCalls(db, Apply(db, step), approvalId);
    case ConsumeAlone(call, approvalId, now) =>
      ConsumeSteps(db, call, approvalId, now);
      ApprovalStepSameCalls(db, Apply(db, step), approvalId);
    case Record(_, _, _, _, _) =>
  }

  lemma OutsideKeeps(sys: System, cfg: Settings, step: Step)
    requires SystemInv(sys, cfg) && Outside(step)
    ensures SystemInv(sys.(db := Apply(sys.db, step)), cfg)
  {
    hide Inv, RowsWellFormed, Tells, Apply, CallsLogged;
    InvParts(sys.db);
    ApplyKeeps(sys.db, step);
    OutsideSameCalls(sys.db, step);
    LogKept(sys, Apply(sys.db, step));
    forall e <- sys.sessions ensures Tells(Apply(sys.db, step), e, sys.sessions[e], cfg) {
      SameCallsTell(sys.db, Apply(sys.db, step), e, sys.sessions[e], cfg);
    }
  }

  lemma LogKept(sys: System, db: Db)
    requires CallsLogged(sys)
    ensures CallsLogged(sys.(db := db))
  {
  }

  // ------------------------------------------------------------------ plans

  lemma PlanAddedFrame(before: Db, working: Db, after: Db, x: Execution, audit: Audit)
    requires PlanAdded(before, working, after, x, audit)
    ensures OthersKept(before, after, x.id) && after.executions.Keys == before.executions.Keys + {x.id}
    ensures x.id !in before.executions && after.attempts == before.attempts && after.executions[x.id] == x
  {
  }

  lemma OpenedTells(after: Db, cmd: PlanCommand, id: string, now: Time, cfg: Settings)
    requires AttemptsOwned(after) && id in after.executions && after.executions[id] == NewExecution(cmd, id, now)
    requires forall k <- after.attempts :: after.attempts[k].executionId != id
    ensures Tells(after, id, Opened(cmd), cfg)
  {
  }

  lemma NoAttempts(before: Db, id: string)
    requires AttemptsOwned(before) && id !in before.executions
    ensures forall k <- before.attempts :: before.attempts[k].executionId != id
  {
  }

  lemma LogOpens(sys: System, after: Db, id: string, s: Session)
    requires CallsLogged(sys) && id !in sys.sessions && s.sent == 0
    ensures CallsLogged(System(after, sys.sessions[id := s], sys.calls))
  {
  }

  lemma OpensAllTell(sys: System, after: Db, id: string, s: Session, cfg: Settings)
    requires AllTell(sys, cfg) && id !in sys.sessions && OthersKept(sys.db, after, id) && Tells(after, id, s, cfg)
    requires after.executions.Keys == sys.db.executions.Keys + {id}
    ensures AllTell(System(after, sys.sessions[id := s], sys.calls), cfg)
  {
    hide Tells, OthersKept;
    forall e <- sys.sessions | e != id ensures Tells(after, e, sys.sessions[e], cfg) {
      OthersTell(sys.db, after, id, e, sys.sessions[e], cfg);
    }
  }

  lemma PlanFailsSameCalls(db: Db, cmd: PlanCommand, seen: Option<Execution>, id: string, auditId: string, now: Time)
    requires RowsWellFormed(db) && PlanTx(db, cmd, seen, id, auditId, now).1.Err?
    ensures var after := PlanTx(db, cmd, seen, id, auditId, now).0;
            after.executions == db.executions && after.attempts == db.attempts
  {
    hide RowsWellFormed, PlanTx;
    PlanShape(db, cmd, seen, id, auditId, now);
  }

  lemma OpenKeeps(sys: System, cfg: Settings, cmd: PlanCommand, seen: Option<Execution>, id: string, auditId: string,
                  now: Time)
    requires SystemInv(sys, cfg)
    ensures SystemInv(Act(sys, cfg, Open(cmd, seen, id, auditId, now)), cfg)
  {
    hide *;
    SystemParts(sys, cfg);
    var (after, outcome) := PlanTx(sys.db, cmd, seen, id, auditId, now);
    PlanKeeps(sys.db, cmd, seen, id, auditId, now);
    OpenIs(sys, cfg, cmd, seen, id, auditId, now);
    if outcome.Err? {
      PlanFailsSameCalls(sys.db, cmd, seen, id, auditId, now);
      SameAllTell(sys, after, cfg);
      LogKept(sys, after);
      SystemWhole(sys.(db := after), cfg);
    } else {
      PlanShape(sys.db, cmd, seen, id, auditId, now);
      var working, x := PlanWorking(sys.db, cmd, now), NewExecution(cmd, id, now);
      var audit := ExecutionAudit(x, Allowed, auditId, now);
      NewExecutionId(cmd, id, now);
      PlanAddedFrame(sys.db, working, after, x, audit);
      NoAttempts(sys.db, id);
      InvParts(after);
      OpenedTells(after, cmd, id, now, cfg);
      SessionKeys(sys, cfg);
      OpensAllTell(sys, after, id, Opened(cmd), cfg);
      OpenedUnsent(cmd);
      LogOpens(sys, after, id, Opened(cmd));
      SystemWhole(System(after, sys.sessions[id := Opened(cmd)], sys.calls), cfg);
    }
  }

  lemma SystemParts(sys: System, cfg: Settings)
    requires SystemInv(sys, cfg)
    ensures Inv(sys.db) && AllTell(sys, cfg) && CallsLogged(sys) && RowsWellFormed(sys.db) && AttemptsOwned(sys.db)
  {
  }

  lemma SystemWhole(sys: System, cfg: Settings)
    requires Inv(sys.db) && AllTell(sys, cfg) && CallsLogged(sys)
    ensures SystemInv(sys, cfg)
  {
  }

  lemma SessionKeys(sys: System, cfg: Settings)
    requires AllTell(sys, cfg)
    ensures sys.sessions.Keys == sys.db.executions.Keys
  {
  }

  lemma OpenedUnsent(cmd: PlanCommand)
    ensures Opened(cmd).sent == 0
  {
  }

  lemma NewExecutionId(cmd: PlanCommand, id: string, now: Time)
    ensures NewExecution(cmd, id, now).id == id
  {
  }

  lemma SameAllTell(sys: System, after: Db, cfg: Settings)
    requires AllTell(sys, cfg) && after.executions == sys.db.executions && after.attempts == sys.db.attempts
    ensures AllTell(sys.(db := after), cfg)
  {
    hide Tells;
    forall e <- sys.sessions ensures Tells(after, e, sys.sessions[e], cfg) {
      SameCallsTell(sys.db, after, e, sys.sessions[e], cfg);
    }
  }

  lemma OpenIs(sys: System, cfg: Settings, cmd: PlanCommand, seen: Option<Execution>, id: string, auditId: string,
               now: Time)
    ensures var (after, outcome) := PlanTx(sys.db, cmd, seen, id, auditId, now);
            Act(sys, cfg, Open(cmd, seen, id, auditId, now)) ==
            if outcome.Ok? then System(after, sys.sessions[id := Opened(cmd)], sys.calls) else sys.(db := after)
  {
  }

  // ---------------------------------------------------------------- advances

  lemma AdvanceKeeps(sys: System, cfg: Settings, e: string, input: Input)
    requires SystemInv(sys, cfg) && e in sys.sessions
    ensures SystemInv(Act(sys, cfg, Advance(e, input)), cfg)
  {
    hide Inv, Tells, CallsLogged, Move, RowsWellFormed, AttemptsOwned, OthersKept;
    SystemParts(sys, cfg);
    var (after, s) := Move(sys.db, e, sys.sessions[e], cfg, input);
    MoveTells(sys.db, e, sys.sessions[e], cfg, input);
    KeysKept(sys.db, after, e, sys.sessions[e], s, cfg);
    AdvanceAllTell(sys, after, e, s, cfg);
    LogAdvances(sys, after, e, s);
  }

  lemma KeysKept(before: Db, after: Db, e: string, s: Session, s': Session, cfg: Settings)
    requires OthersKept(before, after, e) && Tells(before, e, s, cfg) && Tells(after, e, s', cfg)
    ensures after.executions.Keys == before.executions.Keys
  {
  }

  lemma AdvanceAllTell(sys: System, after: Db, e: string, s: Session, cfg: Settings)
    requires AllTell(sys, cfg) && e in sys.sessions && OthersKept(sys.db, after, e) && Tells(after, e, s, cfg)
    requires after.executions.Keys == sys.db.executions.Keys
    ensures AllTell(System(after, sys.sessions[e := s], sys.calls), cfg)
  {
    hide Tells, OthersKept;
    forall f <- sys.sessions | f != e ensures Tells(after, f, sys.sessions[f], cfg) {
      OthersTell(sys.db, after, e, f, sys.sessions[f], cfg);
    }
  }

  lemma LogAdvances(sys: System, after: Db, e: string, s: Session)
    requires CallsLogged(sys) && e in sys.sessions && sys.sessions[e].sent <= s.sent <= sys.sessions[e].sent + 1
    ensures var calls := if s.sent > sys.sessions[e].sent then sys.calls + [e] else sys.calls;
            CallsLogged(System(after, sys.sessions[e := s], calls))
  {
  }

  lemma ActKeeps(sys: System, cfg: Settings, action: Action)
    requires SystemInv(sys, cfg)
    ensures SystemInv(Act(sys, cfg, action), cfg)
  {
    hide SystemInv, Move, PlanTx, Apply;
    match action
    case Open(plan, seen, id, auditId, now) => OpenKeeps(sys, cfg, plan, seen, id, auditId, now);
    case Advance(e, input) => if e in sys.sessions { AdvanceKeeps(sys, cfg, e, input); }
    case Others(step) => if Outside(step) { OutsideKeeps(sys, cfg, step); }
  }

  lemma {:induction false} ScheduleKeeps(sys: System, cfg: Settings, actions: seq<Action>)
    requires SystemInv(sys, cfg)
    ensures SystemInv(Schedule(sys, cfg, actions), cfg)
    decreases |actions|
  {
    hide SystemInv, Act;
    if actions != [] {
      ActKeeps(sys, cfg, actions[0]);
      ScheduleKeeps(Act(sys, cfg, actions[0]), cfg, actions[1..]);
    }
  }

  lemma SessionTells(sys: System, cfg: Settings, e: string)
    requires AllTell(sys, cfg) && e in sys.sessions
    ensures Tells(sys.db, e, sys.sessions[e], cfg)
    ensures sys.sessions[e].phase.Calling? ==> sys.sessions[e].leak.None?
  {
  }

  lemma Reachable(cfg: Settings, actions: seq<Action>)
    ensures SystemInv(Schedule(INITIAL, cfg, actions), cfg)
  {
    EmptyStore();
    ScheduleKeeps(INITIAL, cfg, actions);
  }

  // ---------------------------------------------------------------- theorems

  /** The session of e tells its story in every reachable system, and the log counts its calls. */
  lemma Told(cfg: Settings, actions: seq<Action>, e: string)
    requires e in Schedule(INITIAL, cfg, actions).sessions
    ensures var sys := Schedule(INITIAL, cfg, actions);
            Inv(sys.db) && Tells(sys.db, e, sys.sessions[e], cfg) && multiset(sys.calls)[e] == sys.sessions[e].sent
  {
    hide Inv, Schedule, Tells;
    Reachable(cfg, actions);
  }

  /**
   Bounded retry: in every interleaving an execution has been sent upstream
   exactly as often as it has stored attempts, never more than maxAttempts, and
   more than once only if the tool is read-only or idempotent with a key.
   */
  lemma CallsBounded(cfg: Settings, actions: seq<Action>, e: string)
    requires e in Schedule(INITIAL, cfg, actions).sessions
    ensures var sys := Schedule(INITIAL, cfg, actions);
            && e in sys.db.executions && multiset(sys.calls)[e] == sys.db.executions[e].attemptCount <= cfg.maxAttempts
            && (multiset(sys.calls)[e] > 1 ==>
                Repeatable(sys.db.executions[e].sideEffect, sys.db.executions[e].idempotencyKey.Some?))
  {
    hide Schedule;
    Told(cfg, actions, e);
    var sys := Schedule(INITIAL, cfg, actions);
    CountBounds(sys.sessions[e], cfg);
    if sys.sessions[e].sent > 1 {
      FirstRetried(sys.db, e, sys.sessions[e], cfg);
    }
  }

  lemma CountBounds(s: Session, cfg: Settings)
    requires Counted(s, cfg)
    ensures s.sent <= cfg.maxAttempts && (|s.naps| == s.sent || |s.naps| + 1 == s.sent)
  {
  }

  lemma FirstRetried(db: Db, e: string, s: Session, cfg: Settings)
    requires Inv(db) && Tells(db, e, s, cfg) && s.sent > 1
    ensures Repeatable(s.sideEffect, s.hasKey)
  {
    hide Inv, BacksOff, StatusFits, Settled, RetryDisposition;
    InvParts(db);
    CountBounds(s, cfg);
    assert NumberTaken(db.attempts, e, 1);
    var k :| k in db.attempts && db.attempts[k].executionId == e && db.attempts[k].number == 1;
    assert Owns(db, e, k);
    RetryOnlyRepeatable(s.sideEffect, db.attempts[k].errorCategory.value, s.hasKey);
  }

  /** How many of the calls were made for executions of one idempotency scope. */
  function CallsFor(calls: seq<string>, executions: map<string, Execution>, scope: Scope): nat {
    if calls == [] then 0
    else
      var n := |calls| - 1;
      CallsFor(calls[..n], executions, scope) +
      (if calls[n] in executions && ScopeOf(executions[calls[n]]) == scope then 1 else 0)
  }

  lemma {:induction false} OneClaimant(calls: seq<string>, executions: map<string, Execution>, scope: Scope, e: string)
    requires forall f <- executions :: ScopeOf(executions[f]) == scope ==> f == e
    ensures CallsFor(calls, executions, scope) <= multiset(calls)[e]
  {
    if calls != [] {
      var n := |calls| - 1;
      OneClaimant(calls[..n], executions, scope, e);
      assert calls == calls[..n] + [calls[n]];
    }
  }

  /**
   Over a whole run all upstream calls made for one idempotency key number at
   most maxAttempts, however many plans raced for the key.
   */
  lemma CallsPerKeyBounded(cfg: Settings, actions: seq<Action>, scope: Scope)
    requires scope.key.Some?
    ensures var sys := Schedule(INITIAL, cfg, actions);
            CallsFor(sys.calls, sys.db.executions, scope) <= cfg.maxAttempts
  {
    hide Schedule, Inv, AllTell, CallsLogged;
    Reachable(cfg, actions);
    var sys := Schedule(INITIAL, cfg, actions);
    SystemParts(sys, cfg);
    InvParts(sys.db);
    if e :| e in sys.db.executions && ScopeOf(sys.db.executions[e]) == scope {
      ClaimedOnce(sys.db, e);
      OneClaimant(sys.calls, sys.db.executions, scope, e);
      SessionKeys(sys, cfg);
      CallsBounded(cfg, actions, e);
    } else {
      OneClaimant(sys.calls, sys.db.executions, scope, "");
      NobodyClaims(sys.calls, sys.db.executions, scope);
    }
  }

  lemma ClaimedOnce(db: Db, e: string)
    requires ScopesUnique(db) && e in db.executions && db.executions[e].idempotencyKey.Some?
    ensures forall f <- db.executions :: ScopeOf(db.executions[f]) == ScopeOf(db.executions[e]) ==> f == e
  {
  }

  lemma NobodyClaims(calls: seq<string>, executions: map<string, Execution>, scope: Scope)
    requires forall f <- executions :: ScopeOf(executions[f]) != scope
    ensures CallsFor(calls, executions, scope) == 0
  {
  }

  /** Every stored attempt but the last failed in a way that the retry rule lets through. */
  lemma EarlierAttemptsRetried(cfg: Settings, actions: seq<Action>, e: string, k: string)
    requires e in Schedule(INITIAL, cfg, actions).sessions && Owns(Schedule(INITIAL, cfg, actions).db, e, k)
    ensures var db := Schedule(INITIAL, cfg, actions).db;
            e in db.executions && k in db.attempts &&
            (db.attempts[k].number < db.executions[e].attemptCount ==>
               Retried(db.attempts[k], db.executions[e].sideEffect, db.executions[e].idempotencyKey.Some?))
  {
    hide Schedule, Inv, Retried;
    Told(cfg, actions, e);
    CountBounds(Schedule(INITIAL, cfg, actions).sessions[e], cfg);
  }

  lemma {:induction false} GeometricSum(naps: seq<real>, cfg: Settings)
    requires BacksOff(naps, cfg)
    ensures Sum(naps) == cfg.initialBackoff * (Pow2(|naps|) - 1) as real
  {
    if naps != [] {
      var n := |naps| - 1;
      GeometricSum(naps[..n], cfg);
      Doubles(cfg.initialBackoff, Pow2(n) as real);
    }
  }

  lemma Doubles(x: real, p: real)
    ensures x * (p - 1.0) + x * p == x * (2.0 * p - 1.0)
  {
  }

  /**
   Exponential back-off: after n attempts a returning call has slept
   initial * (2^(n-1) - 1) in all; any other call at most one further nap.
   */
  lemma TotalBackoff(cfg: Settings, actions: seq<Action>, e: string)
    requires e in Schedule(INITIAL, cfg, actions).sessions
    ensures var s := Schedule(INITIAL, cfg, actions).sessions[e];
            && (|s.naps| == s.sent || |s.naps| == s.sent - 1)
            && (s.phase.Finished? && s.phase.outcome.Returned? ==> |s.naps| == s.sent - 1)
            && Sum(s.naps) == cfg.initialBackoff * (Pow2(|s.naps|) - 1) as real
  {
    hide Schedule, Inv, Settled, EarlierRetried, Pow2, Backoff, Sum;
    Told(cfg, actions, e);
    var s := Schedule(INITIAL, cfg, actions).sessions[e];
    CountBounds(s, cfg);
    GeometricSum(s.naps, cfg);
  }

  /**
   No call is left half-finished: a finished session's execution is terminal,
   with exactly one terminal audit, in the status its caller was told; it has no
   attempt in flight, except one whose end could not be stored; and a read-only
   call ends unknown only because of an exception that is not an executor failure.
   */
  lemma FinishedIsTerminal(cfg: Settings, actions: seq<Action>, e: string)
    requires e in Schedule(INITIAL, cfg, actions).sessions
    requires Schedule(INITIAL, cfg, actions).sessions[e].phase.Finished?
    ensures var sys := Schedule(INITIAL, cfg, actions);
            var s := sys.sessions[e];
            && e in sys.db.executions && sys.db.executions[e].Terminal() && |TrailOf(sys.db.audits, e)| == 2
            && (sys.db.executions[e].status.Succeeded? <==> s.phase.outcome.Returned?)
            && (sys.db.executions[e].status.Cancelled? <==> s.phase.outcome == Raised(CallCancelledError))
            && (sys.db.executions[e].status.OutcomeUnknown? <==>
                s.phase.outcome.Raised? && s.phase.outcome.error.UnknownOutcome?)
            && (sys.db.executions[e].sideEffect.ReadOnly? && sys.db.executions[e].status.OutcomeUnknown? ==>
                  s.phase.end == Fail(UNEXPECTED, UnknownCategory, true))
            && s.phase.attemptCount == sys.db.executions[e].attemptCount == multiset(sys.calls)[e]
            && (forall k :: Owns(sys.db, e, k) ==> (sys.db.attempts[k].status.InFlight? <==> s.leak == Some(k)))
  {
    hide Schedule, BacksOff, EarlierRetried;
    Told(cfg, actions, e);
  }

  /** An execution is terminal exactly when its session has finished: never before, and never without it. */
  lemma TerminalExactlyWhenFinished(cfg: Settings, actions: seq<Action>, e: string)
    requires e in Schedule(INITIAL, cfg, actions).sessions
    ensures var sys := Schedule(INITIAL, cfg, actions);
            e in sys.db.executions && (sys.db.executions[e].Terminal() <==> sys.sessions[e].phase.Finished?)
  {
    hide Schedule, BacksOff, EarlierRetried, Settled, Inv;
    Told(cfg, actions, e);
  }

  // ------------------------------------------------ when a transaction fails

  /** An id under which the storage takes a new audit. */
  predicate FreshAudit(db: Db, auditId: string) {
    !Blank(auditId) && forall a <- db.audits :: a.id != auditId
  }

  lemma FinishesExactly(db: Db, e: string, s: Session, cfg: Settings, auditId: string, now: Time)
    requires RowsWellFormed(db) && Tells(db, e, s, cfg) && s.phase.Closing?
    ensures FinishTx(db, s.tenant, e, s.phase.end, auditId, now).1.Ok? <==> FreshAudit(db, auditId)
  {
    hide Counted, BacksOff, Settled, EarlierRetried, Agree, Blank;
    NamesOf(db.executions[e]);
  }

  lemma NamesOf(x: Execution)
    requires x.Named()
    ensures !Blank(x.tenant) && !Blank(x.principal) && !Blank(x.version) && !Blank(x.id)
  {
  }

  /** The closing transaction of a call fails exactly if the id of its audit is blank or taken. */
  lemma ClosesExactlyOnFreshAudit(db: Db, e: string, s: Session, cfg: Settings, auditId: string, now: Time)
    requires Inv(db) && Tells(db, e, s, cfg) && s.phase.Closing?
    ensures Move(db, e, s, cfg, Close(auditId, now)).1.phase.Abandoned? <==> !FreshAudit(db, auditId)
  {
    hide *;
    InvParts(db);
    CloseMove(db, e, s, cfg, Close(auditId, now));
    FinishesExactly(db, e, s, cfg, auditId, now);
  }

  lemma StartsExactly(db: Db, e: string, s: Session, cfg: Settings, attemptId: string, now: Time)
    requires RowsWellFormed(db) && AttemptsOwned(db) && Tells(db, e, s, cfg) && s.phase.Ready?
    ensures StartAttemptTx(db, s.tenant, e, attemptId, now).1.Ok? <==> !Blank(attemptId) && attemptId !in db.attempts
  {
    hide Counted, BacksOff, Settled, EarlierRetried, Blank;
    NamesOf(db.executions[e]);
  }

  lemma StartMove(db: Db, e: string, s: Session, cfg: Settings, attemptId: string, now: Time)
    requires s.phase.Ready?
    ensures var (after, outcome) := StartAttemptTx(db, s.tenant, e, attemptId, now);
            Move(db, e, s, cfg, Start(attemptId, now)) ==
            (after, if outcome.Ok? then s.(phase := Calling(s.phase.retries, attemptId), sent := s.sent + 1)
                    else s.(phase := Unexpected()))
  {
    hide StartAttemptTx, Unexpected;
  }

  /** A call that is ready is sent upstream exactly if the id of its attempt is neither blank nor taken. */
  lemma SentExactlyOnFreshAttempt(db: Db, e: string, s: Session, cfg: Settings, attemptId: string, now: Time)
    requires Inv(db) && Tells(db, e, s, cfg) && s.phase.Ready?
    ensures Move(db, e, s, cfg, Start(attemptId, now)).1.phase.Calling? <==>
            !Blank(attemptId) && attemptId !in db.attempts
  {
    hide *;
    InvParts(db);
    StartMove(db, e, s, cfg, attemptId, now);
    StartsExactly(db, e, s, cfg, attemptId, now);
    UnexpectedCloses();
  }

  // ----------------------------------------------------------------- progress

  /** An upper bound on the steps a session has left. */
  function Rank(phase: Phase, cfg: Settings): int {
    match phase
    case Resolving => 3 * cfg.maxAttempts + 1
    case Ready(n) => 3 * (cfg.maxAttempts - n)
    case Calling(n, _) => 3 * (cfg.maxAttempts - n) - 1
    case Napping(n) => 3 * (cfg.maxAttempts - n) - 2
    case Closing(_, _) => 1
    case _ => 0
  }

  /** The retry loop never falls through and never runs on: each fitting step brings the end nearer. */
  lemma EachStepNearer(sys: System, cfg: Settings, e: string, input: Input)
    requires SystemInv(sys, cfg) && e in sys.sessions && Fits(sys.sessions[e].phase, input)
    ensures 0 <= Rank(Move(sys.db, e, sys.sessions[e], cfg, input).1.phase, cfg) < Rank(sys.sessions[e].phase, cfg)
    ensures 0 <= Rank(sys.sessions[e].phase, cfg) <= 3 * cfg.maxAttempts + 1
  {
    hide Inv, AllTell, CallsLogged, Bound, BacksOff, StatusFits, Settled, EarlierRetried, StartAttemptTx;
    hide FinishAttemptTx, FinishTx;
    SessionTells(sys, cfg, e);
  }

  /** How many of the actions were steps of e's session that fitted its phase. */
  function StepsOf(sys: System, cfg: Settings, actions: seq<Action>, e: string): nat
    decreases |actions|
  {
    if actions == [] then 0
    else
      var first := actions[0];
      var mine := first.Advance? && first.e == e && e in sys.sessions && Fits(sys.sessions[e].phase, first.input);
      (if mine then 1 else 0) + StepsOf(Act(sys, cfg, actions[0]), cfg, actions[1..], e)
  }

  /** A call takes at most 3 * maxAttempts + 1 steps, whatever the others do in between. */
  lemma {:induction false} CallsEnd(sys: System, cfg: Settings, actions: seq<Action>, e: string)
    requires SystemInv(sys, cfg) && e in sys.sessions
    ensures e in Schedule(sys, cfg, actions).sessions
    ensures var rank := Rank(Schedule(sys, cfg, actions).sessions[e].phase, cfg);
            StepsOf(sys, cfg, actions, e) + rank <= Rank(sys.sessions[e].phase, cfg)
    ensures StepsOf(sys, cfg, actions, e) <= 3 * cfg.maxAttempts + 1
    decreases |actions|
  {
    hide SystemInv, Act, Rank;
    RankBounds(sys, cfg, e);
    if actions != [] {
      var next := Act(sys, cfg, actions[0]);
      ActKeeps(sys, cfg, actions[0]);
      ActRanks(sys, cfg, actions[0], e);
      CallsEnd(next, cfg, actions[1..], e);
    }
    ScheduleKeeps(sys, cfg, actions);
    RankBounds(Schedule(sys, cfg, actions), cfg, e);
  }

  lemma RankBounds(sys: System, cfg: Settings, e: string)
    requires SystemInv(sys, cfg)
    ensures e in sys.sessions ==> 0 <= Rank(sys.sessions[e].phase, cfg) <= 3 * cfg.maxAttempts + 1
  {
    hide Inv, AllTell, CallsLogged, Bound, BacksOff, StatusFits, Settled, EarlierRetried;
    if e in sys.sessions {
      SessionTells(sys, cfg, e);
    }
  }

  lemma ActRanks(sys: System, cfg: Settings, action: Action, e: string)
    requires SystemInv(sys, cfg) && e in sys.sessions
    ensures e in Act(sys, cfg, action).sessions
    ensures var mine := action.Advance? && action.e == e && Fits(sys.sessions[e].phase, action.input);
            var rank := Rank(Act(sys, cfg, action).sessions[e].phase, cfg);
            rank + (if mine then 1 else 0) <= Rank(sys.sessions[e].phase, cfg)
  {
    hide SystemInv, Rank, PlanTx, Apply;
    if action.Advance? && action.e == e {
      if Fits(sys.sessions[e].phase, action.input) {
        EachStepNearer(sys, cfg, e, action.input);
      }
    } else if action.Open? && PlanTx(sys.db, action.plan, action.seen, action.id, action.auditId, action.now).1.Ok? {
      OpensElsewhere(sys, cfg, action, e);
    }
  }

  lemma OpensElsewhere(sys: System, cfg: Settings, action: Action, e: string)
    requires SystemInv(sys, cfg) && e in sys.sessions && action.Open?
    requires PlanTx(sys.db, action.plan, action.seen, action.id, action.auditId, action.now).1.Ok?
    ensures action.id != e
  {
    hide PlanTx, Inv, CallsLogged, Tells;
    SystemParts(sys, cfg);
    PlanShape(sys.db, action.plan, action.seen, action.id, action.auditId, action.now);
    SessionKeys(sys, cfg);
  }
}
