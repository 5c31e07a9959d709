/** CallTool and its retry loop as code: gates before the plan, attempts after it, one end. */
module CallTools {
  import opened Common
  import opened ExecutionDomain
  import opened ApprovalDomain
  import opened GatewayStore
  import opened GatewayInvariant
  import GatewayTheorems
  import opened CallSession
  import opened CallSessionInvariant
  import opened CallSessionTheorems
  import opened CallLeaks
  import opened Lifecycle

  // ------------------------------------------------------- the outside world

  /** The upstream may do anything. */
  method CallUpstream() returns (reply: Reply) {
    reply := *;
  }

  method Sleep(seconds: real) returns (cancelled: bool) {
    cancelled := *;
  }

  datatype SecretAnswer = SecretValue | KnownError(code: string) | OtherError

  method ResolveSecret() returns (answer: SecretAnswer) {
    answer := *;
  }

  // ----------------------------------------------------------- the retry loop

  /** How ExecuteWithRetry ends. */
  datatype Ending =
    | ExecutorResult(upstreamStatus: Option<int>)
    | CancelledEnding
    | ExecutorFailure(code: string, category: Category, outcomeUnknown: bool)
    | OtherException

  /** What CallTool does with an ending. */
  function PhaseAfter(ending: Ending): Phase {
    match ending
    case ExecutorResult(upstreamStatus) => Closing(Succeed, Returned(upstreamStatus))
    case CancelledEnding => Closing(Cancel, Raised(CallCancelledError))
    case ExecutorFailure(code, category, unknown) =>
      Closing(Fail(code, category, unknown), Raised(PublicExecutorError(code, category, unknown)))
    case OtherException => Unexpected()
  }

  lemma {:induction false} DriveOn(db: Db, e: string, s: Session, cfg: Settings, first: seq<Input>, rest: seq<Input>)
    ensures var (mid, session) := Drive(db, e, s, cfg, first);
            Drive(db, e, s, cfg, first + rest) == Drive(mid, e, session, cfg, rest)
  {
    if rest == [] {
      assert first + rest == first;
    } else {
      var n := |rest| - 1;
      DriveOn(db, e, s, cfg, first, rest[..n]);
      assert (first + rest)[..|first| + n] == first + rest[..n];
    }
  }

  lemma DriveNone(db: Db, e: string, s: Session, cfg: Settings)
    ensures Drive(db, e, s, cfg, []) == (db, s)
  {
  }

  lemma UnexpectedIs()
    ensures PhaseAfter(OtherException) == Unexpected()
  {
  }

  lemma DriveStep(db: Db, e: string, s: Session, cfg: Settings, inputs: seq<Input>, input: Input)
    ensures var (mid, session) := Drive(db, e, s, cfg, inputs);
            Drive(db, e, s, cfg, inputs + [input]) == Move(mid, e, session, cfg, input)
  {
    assert (inputs + [input])[..|inputs|] == inputs;
  }

  lemma NapMove(db: Db, e: string, s: Session, cfg: Settings, cancelled: bool)
    requires s.phase.Napping?
    ensures Move(db, e, s, cfg, if cancelled then CancelNap else Wake) ==
            (db, s.(phase := if cancelled then PhaseAfter(CancelledEnding) else Ready(s.phase.retries + 1)))
  {
  }

  /** How the loop reads a reply whose attempt end is stored. */
  lemma ReplyMeans(s: Session, cfg: Settings, n: nat, reply: Reply)
    ensures var s' := AfterReply(s, cfg, n, reply);
            && s'.tenant == s.tenant && s'.sideEffect == s.sideEffect && s'.hasKey == s.hasKey
            && match reply
               case Response(upstreamStatus) => s'.phase == PhaseAfter(ExecutorResult(upstreamStatus))
               case CancelledReply => s'.phase == PhaseAfter(CancelledEnding)
               case Crash => s'.phase == PhaseAfter(OtherException)
               case Failure(code, category, unknown, _) =>
                 var disposition := RetryDisposition(s.sideEffect, category, s.hasKey);
                 if disposition.Retry? && n + 1 < cfg.maxAttempts then s'.phase == Napping(n)
                 else
                   var known := s.sideEffect.ReadOnly? && unknown && !disposition.RequireReconciliation?;
                   s'.phase == PhaseAfter(ExecutorFailure(code, category, if known then false else unknown))
  {
    hide RetryDisposition, PublicExecutorError, Backoff;
  }

  class ExecuteWithRetry {
    const lifecycle: ExecutionLifecycle
    const cfg: Settings

    constructor (lifecycle: ExecutionLifecycle, cfg: Settings)
      ensures this.lifecycle == lifecycle && this.cfg == cfg
    {
      this.lifecycle := lifecycle;
      this.cfg := cfg;
    }

    /** The loop is a run of the session's steps from its first attempt to its closing phase; it never falls through. */
    method Execute(e: string, tenant: string, sideEffect: SideEffect, hasKey: bool, ghost begun: Session)
      returns (ending: Ending, ghost inputs: seq<Input>, ghost s: Session)
      requires begun == Session(tenant, sideEffect, hasKey, Ready(0), 0, [], None)
      modifies lifecycle.store
      ensures (lifecycle.store.db, s) == Drive(old(lifecycle.store.db), e, begun, cfg, inputs)
      ensures s.phase == PhaseAfter(ending)
    {
      hide *;
      s, inputs := begun, [];
      DriveNone(old(lifecycle.store.db), e, begun, cfg);
      UnexpectedIs();
      for attemptNumber := 1 to cfg.maxAttempts + 1
        invariant attemptNumber <= cfg.maxAttempts
        invariant (lifecycle.store.db, s) == Drive(old(lifecycle.store.db), e, begun, cfg, inputs)
        invariant s.phase == Ready(attemptNumber - 1) && s.sideEffect == sideEffect && s.hasKey == hasKey
        invariant s.tenant == tenant
      {
        var attemptId := NewId();
        var now := ReadClock();
        ghost var before := lifecycle.store.db;
        var attempt := lifecycle.StartAttempt(tenant, e, attemptId, now);
        DriveStep(old(lifecycle.store.db), e, begun, cfg, inputs, Start(attemptId, now));
        StartMove(before, e, s, cfg, attemptId, now);
        inputs := inputs + [Start(attemptId, now)];
        s := if attempt.Ok? then s.(phase := Calling(attemptNumber - 1, attemptId), sent := s.sent + 1)
             else s.(phase := Unexpected());
        if attempt.Err? { return OtherException, inputs, s; }
        var reply := CallUpstream();
        now := ReadClock();
        before := lifecycle.store.db;
        var stored := lifecycle.FinishAttempt(tenant, attemptId, AttemptEndOf(reply), now);
        DriveStep(old(lifecycle.store.db), e, begun, cfg, inputs, Answer(reply, now));
        AnswerMove(before, e, s, cfg, Answer(reply, now));
        ReplyMeans(s, cfg, attemptNumber - 1, reply);
        inputs := inputs + [Answer(reply, now)];
        s := if stored.Ok? then AfterReply(s, cfg, attemptNumber - 1, reply)
             else s.(phase := Unexpected(), leak := Some(attemptId));
        if stored.Err? { return OtherException, inputs, s; }
        match reply {
          case Response(upstreamStatus) => return ExecutorResult(upstreamStatus), inputs, s;
          case CancelledReply => return CancelledEnding, inputs, s;
          case Crash => return OtherException, inputs, s;
          case Failure(code, category, outcomeUnknown, _) =>
            var disposition := RetryDisposition(sideEffect, category, hasKey);
            if disposition.Retry? && attemptNumber < cfg.maxAttempts {
              var cancelled := Sleep(Backoff(cfg, attemptNumber - 1));
              DriveStep(old(lifecycle.store.db), e, begun, cfg, inputs, if cancelled then CancelNap else Wake);
              NapMove(lifecycle.store.db, e, s, cfg, cancelled);
              inputs := inputs + [if cancelled then CancelNap else Wake];
              s := s.(phase := if cancelled then PhaseAfter(CancelledEnding) else Ready(attemptNumber));
              if cancelled { return CancelledEnding, inputs, s; }
            } else if sideEffect.ReadOnly? && outcomeUnknown && !disposition.RequireReconciliation? {
              return ExecutorFailure(code, category, false), inputs, s;
            } else {
              return ExecutorFailure(code, category, outcomeUnknown), inputs, s;
            }
        }
      }
      assert false;
    }
  }

  // ------------------------------------------------------------------ a call

  datatype PrincipalKind = AgentService | Anonymous
  datatype PolicyEffect = Allow | Deny | RequireApproval

  /** The executable tool; `needsCredential` says that its auth scheme is not "none". */
  datatype Tool = Tool(toolId: string, version: string, bindingId: string, sideEffect: SideEffect,
                       visibility: Visibility, needsCredential: bool)

  /** The answers of the ports a call consults before it is planned. */
  datatype World = World(
    principal: string, kind: PrincipalKind, tool: Option<Tool>, argumentsValid: bool,
    effect: PolicyEffect, policyVersion: string, reasonCode: string,
    egressAllowed: bool, credentialsConfigured: bool, bindingFound: bool)

  datatype Command = Command(tenant: string, argumentsDigest: string, idempotencyKey: Option<string>,
                             approvalId: Option<string>)

  datatype Answer = Answered(executionId: string, upstreamStatus: Option<int>, attemptCount: int)

  datatype CallError =
    | ToolNotFound | ToolNotVisible | ArgumentsInvalid | KeyNotAllowed | KeyRequired
    | PolicyDenied | ApprovalNeeded(approvalId: Option<string>)
    | EgressRefused | CredentialsNotConfigured | BindingNotFound
    | StoreError(error: Error)
    | AfterPlan(raised: PublicError)

  /** `_is_visible` */
  predicate Visible(visibility: Visibility, kind: PrincipalKind) {
    visibility.Public? || (visibility.Authenticated? && !kind.Anonymous?)
  }

  function CallBy(cmd: Command, w: World, tool: Tool): Call {
    Call(cmd.tenant, w.principal, tool.version, cmd.argumentsDigest, w.policyVersion, cmd.idempotencyKey)
  }

  /** What must hold before anything is planned. */
  predicate Admitted(cmd: Command, w: World) {
    && w.tool.Some? && Visible(w.tool.value.visibility, w.kind) && w.argumentsValid
    && (cmd.idempotencyKey.Some? <==> w.tool.value.sideEffect.IdempotentWrite?)
    && !w.effect.Deny? && (w.effect.RequireApproval? ==> cmd.approvalId.Some?)
    && w.egressAllowed && (w.tool.value.needsCredential ==> w.credentialsConfigured && w.bindingFound)
  }

  /** The plan of an admitted call: an approval is consumed only if the policy asks for one. */
  function PlanOf(cmd: Command, w: World): PlanCommand
    requires w.tool.Some?
  {
    var tool := w.tool.value;
    PlanCommand(CallBy(cmd, w, tool), tool.toolId, tool.bindingId, w.reasonCode, tool.sideEffect,
                if w.effect.RequireApproval? then cmd.approvalId else None)
  }

  /** How far a call got: refused before planning, refused by the plan, or run to an end as execution e. */
  datatype Progress =
    | Refused
    | DenialRecorded(auditId: string, now: Time)
    | ApprovalAsked(id: string, auditId: string, now: Time)
    | PlanRefused(seen: Option<Execution>, id: string, auditId: string, now: Time)
    | Ran(seen: Option<Execution>, e: string, auditId: string, now: Time, inputs: seq<Input>, session: Session)

  /** What each refusal says about the call; a refusal names the first gate that failed. */
  predicate Explains(error: CallError, cmd: Command, w: World) {
    match error
    case ToolNotFound => w.tool.None?
    case ToolNotVisible => w.tool.Some? && !Visible(w.tool.value.visibility, w.kind)
    case _ =>
      && w.tool.Some? && Visible(w.tool.value.visibility, w.kind)
      && var tool := w.tool.value;
      match error
      case ArgumentsInvalid => !w.argumentsValid
      case KeyNotAllowed => w.argumentsValid && cmd.idempotencyKey.Some? && !tool.sideEffect.IdempotentWrite?
      case KeyRequired => w.argumentsValid && cmd.idempotencyKey.None? && tool.sideEffect.IdempotentWrite?
      case _ =>
        && w.argumentsValid && (cmd.idempotencyKey.Some? <==> tool.sideEffect.IdempotentWrite?)
        && match error
           case PolicyDenied => w.effect.Deny?
           case ApprovalNeeded(_) => w.effect.RequireApproval? && cmd.approvalId.None?
           case StoreError(_) => w.effect.Deny? || (w.effect.RequireApproval? && cmd.approvalId.None?)
           case _ =>
             && !w.effect.Deny? && (w.effect.RequireApproval? ==> cmd.approvalId.Some?)
             && match error
                case EgressRefused => !w.egressAllowed
                case CredentialsNotConfigured => w.egressAllowed && tool.needsCredential && !w.credentialsConfigured
                case BindingNotFound =>
                  w.egressAllowed && tool.needsCredential && w.credentialsConfigured && !w.bindingFound
                case _ => false
  }

  /** What the caller is told about a session that has ended. */
  ghost predicate Tell(r: Result<Answer, CallError>, e: string, s: Session) {
    match s.phase
    case Finished(_, Returned(upstreamStatus), n) => r == Ok(Answered(e, upstreamStatus, n))
    case Finished(_, Raised(error), _) => r == Err(AfterPlan(error))
    case Abandoned => r.Err? && r.error.StoreError?
    case _ => false
  }

  /** The last input closes the call. */
  predicate EndsWithClose(db: Db, e: string, s: Session, cfg: Settings, inputs: seq<Input>) {
    && inputs != [] && inputs[|inputs| - 1].Close?
    && Drive(db, e, s, cfg, inputs[..|inputs| - 1]).1.phase.Closing?
  }

  /** At the last input the storage takes its audit. */
  predicate LastAuditFresh(db: Db, e: string, s: Session, cfg: Settings, inputs: seq<Input>)
    requires EndsWithClose(db, e, s, cfg, inputs)
  {
    FreshAudit(Drive(db, e, s, cfg, inputs[..|inputs| - 1]).0, inputs[|inputs| - 1].auditId)
  }

  /** The answer, the new store and the progress fit together. */
  ghost predicate Handled(before: Db, after: Db, cmd: Command, w: World, cfg: Settings, ttl: int,
                          r: Result<Answer, CallError>, p: Progress) {
    if p.PlanRefused? || p.Ran? then Admitted(cmd, w) && PlanHandled(before, after, PlanOf(cmd, w), cfg, r, p)
    else
      && r.Err? && Explains(r.error, cmd, w)
      && match p
         case DenialRecorded(auditId, now) =>
           w.effect.Deny? && w.tool.Some? &&
             DenialHandled(before, after, CallBy(cmd, w, w.tool.value), w.reasonCode, auditId, now, r.error)
         case ApprovalAsked(id, auditId, now) =>
           && w.effect.RequireApproval? && w.tool.Some?
           && AskHandled(before, after, CallBy(cmd, w, w.tool.value), w.tool.value.toolId, w.reasonCode, ttl, id,
                         auditId, now, r.error)
         case _ => after == before && !r.error.StoreError? && !r.error.PolicyDenied?
  }

  ghost predicate DenialHandled(before: Db, after: Db, call: Call, reasonCode: string, auditId: string, now: Time,
                                error: CallError) {
    var (committed, recorded) := RecordTx(before, call, reasonCode, Denied, auditId, now);
    after == committed && error == (if recorded.Ok? then PolicyDenied else StoreError(recorded.error))
  }

  ghost predicate AskHandled(before: Db, after: Db, call: Call, toolId: string, reasonCode: string, ttl: int,
                             id: string, auditId: string, now: Time, error: CallError) {
    var (committed, approval) := RequestTx(before, RequestCommand(call, toolId, reasonCode), ttl, id, auditId, now);
    after == committed && error == (if approval.Ok? then ApprovalNeeded(Some(id)) else StoreError(approval.error))
  }

  ghost predicate PlanHandled(before: Db, after: Db, plan: PlanCommand, cfg: Settings, r: Result<Answer, CallError>,
                              p: Progress) {
    match p
    case PlanRefused(seen, id, auditId, now) =>
      && var (committed, planned) := PlanTx(before, plan, seen, id, auditId, now);
      after == committed && planned.Err? && r == Err(StoreError(planned.error))
    case Ran(seen, e, auditId, now, inputs, s) =>
      && var (committed, planned) := PlanTx(before, plan, seen, e, auditId, now);
      && planned.Ok? && Drive(committed, e, Opened(plan), cfg, inputs) == (after, s) && Tell(r, e, s)
      && EndsWithClose(committed, e, Opened(plan), cfg, inputs)
    case _ => false
  }

  /** Nothing is planned, and no secret touched, unless every gate was passed. */
  lemma RefusedUnlessAdmitted(before: Db, after: Db, cmd: Command, w: World, cfg: Settings, ttl: int,
                              r: Result<Answer, CallError>, p: Progress)
    requires Handled(before, after, cmd, w, cfg, ttl, r, p)
    ensures Admitted(cmd, w) <==> p.PlanRefused? || p.Ran?
    ensures !Admitted(cmd, w) ==> r.Err? && after.executions == before.executions && after.attempts == before.attempts
  {
    hide PlanHandled;
  }

  function InputOf(secret: SecretAnswer): Input {
    match secret
    case SecretValue => SecretResolved
    case KnownError(code) => SecretFailed(Some(code))
    case OtherError => SecretFailed(None)
  }

  lemma SecretMove(db: Db, e: string, s: Session, cfg: Settings, secret: SecretAnswer)
    requires s.phase.Resolving?
    ensures Move(db, e, s, cfg, InputOf(secret)) == (db, s.(phase := AfterSecret(secret)))
  {
  }

  lemma TenantKept(db: Db, e: string, s: Session, cfg: Settings, inputs: seq<Input>)
    ensures Drive(db, e, s, cfg, inputs).1.tenant == s.tenant
  {
    hide StartAttemptTx, FinishAttemptTx, FinishTx, Unexpected, RetryDisposition, PublicExecutorError, Backoff;
  }

  lemma LastCloses(db: Db, e: string, s: Session, cfg: Settings, inputs: seq<Input>, last: Input)
    requires last.Close? && Drive(db, e, s, cfg, inputs).1.phase.Closing?
    ensures EndsWithClose(db, e, s, cfg, inputs + [last])
  {
    hide Drive;
    assert (inputs + [last])[..|inputs|] == inputs;
  }

  lemma Closed(db: Db, e: string, s: Session, cfg: Settings, auditId: string, now: Time, r: Result<Answer, CallError>)
    requires s.phase.Closing?
    requires var closed := FinishTx(db, s.tenant, e, s.phase.end, auditId, now).1;
             r == if closed.Err? then Err(StoreError(closed.error))
                  else match s.phase.outcome
                    case Returned(upstreamStatus) => Ok(Answered(e, upstreamStatus, closed.value.attemptCount))
                    case Raised(error) => Err(AfterPlan(error))
    ensures Tell(r, e, Move(db, e, s, cfg, Close(auditId, now)).1)
  {
    hide FinishTx;
  }

  function AfterSecret(secret: SecretAnswer): Phase {
    match secret
    case KnownError(code) => Closing(Fail(code, Credential, false), Raised(SecretError))
    case OtherError => Closing(Fail("credential_resolution_failed", Credential, false), Raised(CredentialResolution))
    case SecretValue => Ready(0)
  }

  lemma SecretPhase(secret: SecretAnswer)
    ensures AfterSecret(secret) == match secret
      case SecretValue => Ready(0)
      case KnownError(code) => Closing(Fail(code, Credential, false), Raised(SecretError))
      case OtherError => Closing(Fail("credential_resolution_failed", Credential, false), Raised(CredentialResolution))
  {
  }

  lemma EndingPhase(ending: Ending)
    ensures PhaseAfter(ending) == match ending
      case ExecutorResult(upstreamStatus) => Closing(Succeed, Returned(upstreamStatus))
      case CancelledEnding => Closing(Cancel, Raised(CallCancelledError))
      case ExecutorFailure(code, category, unknown) =>
        Closing(Fail(code, category, unknown), Raised(PublicExecutorError(code, category, unknown)))
      case OtherException =>
        Closing(Fail(UNEXPECTED, UnknownCategory, true), Raised(UnknownOutcome("unexpected executor failure")))
  {
  }

  lemma PlannedTells(db: Db, cmd: PlanCommand, seen: Option<Execution>, e: string, auditId: string, now: Time,
                     cfg: Settings)
    requires Inv(db) && PlanTx(db, cmd, seen, e, auditId, now).1.Ok?
    ensures var after := PlanTx(db, cmd, seen, e, auditId, now).0; Inv(after) && Tells(after, e, Opened(cmd), cfg)
  {
    hide *;
    InvParts(db);
    PlanKeeps(db, cmd, seen, e, auditId, now);
    PlanShape(db, cmd, seen, e, auditId, now);
    var after, x := PlanTx(db, cmd, seen, e, auditId, now).0, NewExecution(cmd, e, now);
    InvParts(after);
    NewExecutionId(cmd, e, now);
    PlanAddedFrame(db, PlanWorking(db, cmd, now), after, x, ExecutionAudit(x, Allowed, auditId, now));
    NoAttempts(db, e);
    OpenedTells(after, cmd, e, now, cfg);
  }

  /**
   Every way out of a planned call, on any store that keeps the invariant: the
   execution is terminal with one terminal audit, succeeded exactly when the
   call returned, and counts its attempts in the answer; only if the closing
   transaction itself failed is it left running, which is exactly if the id of
   its audit was blank or taken.  An attempt stays in flight exactly if an answer
   of the executor reported a status outside 100..599.
   */
  lemma PlannedCallEnds(before: Db, after: Db, cmd: Command, w: World, cfg: Settings, ttl: int,
                        r: Result<Answer, CallError>, p: Progress)
    requires Inv(before) && Handled(before, after, cmd, w, cfg, ttl, r, p) && p.Ran?
    ensures Inv(after) && p.e in after.executions && after.executions[p.e].attemptCount <= cfg.maxAttempts
    ensures after.executions[p.e].Terminal() <==> !(r.Err? && r.error.StoreError?)
    ensures after.executions[p.e].status.Succeeded? <==> r.Ok?
    ensures after.executions[p.e].status.OutcomeUnknown? <==>
            r.Err? && r.error.AfterPlan? && r.error.raised.UnknownOutcome?
    ensures after.executions[p.e].status.Cancelled? <==> r == Err(AfterPlan(CallCancelledError))
    ensures r.Ok? ==> r.value.executionId == p.e && r.value.attemptCount == |GatewayTheorems.AttemptsOf(after, p.e)|
    ensures !(r.Err? && r.error.StoreError?) ==> |TrailOf(after.audits, p.e)| == 2
    ensures w.tool.Some?
    ensures var plan := PlanOf(cmd, w);
            var planned := PlanTx(before, plan, p.seen, p.e, p.auditId, p.now).0;
            && (LeftInFlight(after, p.e) <==>
                exists i: nat :: AnswersBadly(planned, p.e, Opened(plan), cfg, p.inputs, i))
            && EndsWithClose(planned, p.e, Opened(plan), cfg, p.inputs)
            && (r.Err? && r.error.StoreError? <==> !LastAuditFresh(planned, p.e, Opened(plan), cfg, p.inputs))
  {
    hide *;
    HandledRan(before, after, cmd, w, cfg, ttl, r, p);
    PlannedTells(before, PlanOf(cmd, w), p.seen, p.e, p.auditId, p.now, cfg);
    var committed := PlanTx(before, PlanOf(cmd, w), p.seen, p.e, p.auditId, p.now).0;
    DriveTells(committed, p.e, Opened(PlanOf(cmd, w)), cfg, p.inputs);
    OpenedHolds(PlanOf(cmd, w));
    CallLeaksExactly(committed, p.e, Opened(PlanOf(cmd, w)), cfg, p.inputs);
    ToldStory(after, p.e, p.session, cfg, r);
    LastStepCloses(committed, p.e, Opened(PlanOf(cmd, w)), cfg, p.inputs, r);
    GatewayTheorems.AttemptsNumbered(after, p.e);
  }

  lemma HandledRan(before: Db, after: Db, cmd: Command, w: World, cfg: Settings, ttl: int, r: Result<Answer, CallError>,
                   p: Progress)
    requires Handled(before, after, cmd, w, cfg, ttl, r, p) && p.Ran?
    ensures w.tool.Some?
    ensures var (committed, planned) := PlanTx(before, PlanOf(cmd, w), p.seen, p.e, p.auditId, p.now);
            && planned.Ok? && Drive(committed, p.e, Opened(PlanOf(cmd, w)), cfg, p.inputs) == (after, p.session)
            && Tell(r, p.e, p.session) && EndsWithClose(committed, p.e, Opened(PlanOf(cmd, w)), cfg, p.inputs)
  {
    hide PlanTx, Drive, Tell, EndsWithClose;
  }

  lemma LastStepCloses(db: Db, e: string, s: Session, cfg: Settings, inputs: seq<Input>, r: Result<Answer, CallError>)
    requires Inv(db) && Tells(db, e, s, cfg) && EndsWithClose(db, e, s, cfg, inputs)
    requires Tell(r, e, Drive(db, e, s, cfg, inputs).1)
    ensures r.Err? && r.error.StoreError? <==> !LastAuditFresh(db, e, s, cfg, inputs)
  {
    hide Inv, Tells, Move, FreshAudit;
    var n := |inputs| - 1;
    DriveTells(db, e, s, cfg, inputs[..n]);
    var (mid, session) := Drive(db, e, s, cfg, inputs[..n]);
    ClosesExactlyOnFreshAudit(mid, e, session, cfg, inputs[n].auditId, inputs[n].now);
  }

  lemma OpenedHolds(cmd: PlanCommand)
    ensures Opened(cmd).leak.None?
  {
  }

  lemma ToldStory(db: Db, e: string, s: Session, cfg: Settings, r: Result<Answer, CallError>)
    requires Inv(db) && Tells(db, e, s, cfg) && Tell(r, e, s)
    ensures e in db.executions && db.executions[e].attemptCount <= cfg.maxAttempts
    ensures db.executions[e].Terminal() <==> !(r.Err? && r.error.StoreError?)
    ensures db.executions[e].status.Succeeded? <==> r.Ok?
    ensures db.executions[e].status.OutcomeUnknown? <==> r.Err? && r.error.AfterPlan? && r.error.raised.UnknownOutcome?
    ensures db.executions[e].status.Cancelled? <==> r == Err(AfterPlan(CallCancelledError))
    ensures r.Ok? ==> r.value.executionId == e && r.value.attemptCount == db.executions[e].attemptCount
    ensures !(r.Err? && r.error.StoreError?) ==> |TrailOf(db.audits, e)| == 2
    ensures LeftInFlight(db, e) <==> s.leak.Some?
  {
    hide BacksOff, EarlierRetried, LeftInFlight;
    InFlightIsLeak(db, e, s, cfg);
  }

  class CallTool {
    const retry: ExecuteWithRetry
    const approvals: Option<ApprovalUseCases>
    const ttl: int

    constructor (retry: ExecuteWithRetry, approvals: Option<ApprovalUseCases>, ttl: int)
      requires approvals.Some? ==> approvals.value.store == retry.lifecycle.store
      ensures this.retry == retry && this.approvals == approvals && this.ttl == ttl
    {
      this.retry := retry;
      this.approvals := approvals;
      this.ttl := ttl;
    }

    ghost predicate Wired() {
      approvals.Some? ==> approvals.value.store == retry.lifecycle.store
    }

    /** Everything after the plan: resolve the secret, run the attempts, close the execution. */
    method RunPlanned(e: string, tenant: string, tool: Tool, hasKey: bool, ghost begun: Session)
      returns (r: Result<Answer, CallError>, ghost inputs: seq<Input>, ghost s: Session)
      requires begun == Session(tenant, tool.sideEffect, hasKey, Resolving, 0, [], None)
      modifies retry.lifecycle.store
      ensures (retry.lifecycle.store.db, s) == Drive(old(retry.lifecycle.store.db), e, begun, retry.cfg, inputs)
      ensures Tell(r, e, s) && EndsWithClose(old(retry.lifecycle.store.db), e, begun, retry.cfg, inputs)
    {
      hide *;
      var lifecycle := retry.lifecycle;
      ghost var before, cfg := lifecycle.store.db, retry.cfg;
      var secret := SecretValue;
      if tool.needsCredential {
        secret := ResolveSecret();
      }
      var end: ExecutionEnd, outcome: Outcome;
      DriveNone(before, e, begun, cfg);
      DriveStep(before, e, begun, cfg, [], InputOf(secret));
      assert [] + [InputOf(secret)] == [InputOf(secret)];
      SecretMove(before, e, begun, cfg, secret);
      inputs, s := [InputOf(secret)], begun.(phase := AfterSecret(secret));
      SecretPhase(secret);
      match secret {
        case KnownError(code) =>
          end, outcome := Fail(code, Credential, false), Raised(SecretError);
        case OtherError =>
          end, outcome := Fail("credential_resolution_failed", Credential, false), Raised(CredentialResolution);
        case SecretValue =>
          ghost var more: seq<Input>;
          var ending: Ending;
          ending, more, s := retry.Execute(e, tenant, tool.sideEffect, hasKey, s);
          DriveOn(before, e, begun, cfg, inputs, more);
          inputs := inputs + more;
          match ending {
            case CancelledEnding => end, outcome := Cancel, Raised(CallCancelledError);
            case ExecutorFailure(code, category, outcomeUnknown) =>
              end, outcome :=
                Fail(code, category, outcomeUnknown), Raised(PublicExecutorError(code, category, outcomeUnknown));
            case OtherException =>
              end, outcome :=
                Fail(UNEXPECTED, UnknownCategory, true), Raised(UnknownOutcome("unexpected executor failure"));
            case ExecutorResult(upstreamStatus) => end, outcome := Succeed, Returned(upstreamStatus);
          }
          EndingPhase(ending);
      }
      TenantKept(before, e, begun, cfg, inputs);
      var auditId := NewId();
      var now := ReadClock();
      ghost var mid := lifecycle.store.db;
      var closed := lifecycle.Finish(tenant, e, end, auditId, now);
      if closed.Err? {
        r := Err(StoreError(closed.error));
      } else {
        match outcome {
          case Returned(upstreamStatus) => r := Ok(Answered(e, upstreamStatus, closed.value.attemptCount));
          case Raised(error) => r := Err(AfterPlan(error));
        }
      }
      DriveStep(before, e, begun, cfg, inputs, Close(auditId, now));
      CloseMove(mid, e, s, cfg, Close(auditId, now));
      Closed(mid, e, s, cfg, auditId, now, r);
      LastCloses(before, e, begun, cfg, inputs, Close(auditId, now));
      inputs := inputs + [Close(auditId, now)];
      s := Move(mid, e, s, cfg, Close(auditId, now)).1;
    }

    /** `_record_policy_decision` of a denial, and the error raised after it. */
    method RecordDenial(call: Call, reasonCode: string)
      returns (error: CallError, ghost auditId: string, ghost now: Time)
      modifies retry.lifecycle.store
      ensures DenialHandled(old(retry.lifecycle.store.db), retry.lifecycle.store.db, call, reasonCode, auditId, now,
                            error)
      ensures error.PolicyDenied? || error.StoreError?
    {
      var id := NewId();
      var at := ReadClock();
      auditId, now := id, at;
      var recorded := retry.lifecycle.RecordCallDecision(call, reasonCode, Denied, id, at);
      error := if recorded.Ok? then PolicyDenied else StoreError(recorded.error);
    }

    /** `_pass_approval_gate` of a call without an approval: a request is stored, and always an error raised. */
    method AskForApproval(useCases: ApprovalUseCases, call: Call, toolId: string, reasonCode: string)
      returns (error: CallError, ghost id: string, ghost auditId: string, ghost now: Time)
      requires useCases.store == retry.lifecycle.store
      modifies retry.lifecycle.store
      ensures AskHandled(old(retry.lifecycle.store.db), retry.lifecycle.store.db, call, toolId, reasonCode, ttl, id,
                         auditId, now, error)
      ensures error.ApprovalNeeded? || error.StoreError?
    {
      var newId := NewId();
      var newAuditId := NewId();
      var at := ReadClock();
      id, auditId, now := newId, newAuditId, at;
      var approval := useCases.Request(RequestCommand(call, toolId, reasonCode), ttl, newId, newAuditId, at);
      error := if approval.Ok? then ApprovalNeeded(Some(approval.value.id)) else StoreError(approval.error);
    }

    /** Plan, and if that succeeds run to the end. */
    method PlanAndRun(plan: PlanCommand, tool: Tool) returns (r: Result<Answer, CallError>, ghost p: Progress)
      requires plan.sideEffect == tool.sideEffect
      modifies retry.lifecycle.store
      ensures PlanHandled(old(retry.lifecycle.store.db), retry.lifecycle.store.db, plan, retry.cfg, r, p)
      ensures p.PlanRefused? || p.Ran?
    {
      hide PlanTx, Drive, Tell, EndsWithClose, NewExecution, IsLookup, ScopeOf;
      var id := NewId();
      var auditId := NewId();
      var now := ReadClock();
      var planned, seen := retry.lifecycle.Plan(plan, id, auditId, now);
      if planned.Err? { return Err(StoreError(planned.error)), PlanRefused(seen, id, auditId, now); }
      ghost var inputs: seq<Input>, s: Session;
      r, inputs, s := RunPlanned(id, plan.call.tenant, tool, plan.call.idempotencyKey.Some?, Opened(plan));
      p := Ran(seen, id, auditId, now, inputs, s);
    }

    /** The whole call. */
    method Execute(cmd: Command, w: World) returns (r: Result<Answer, CallError>, ghost p: Progress)
      requires Wired()
      modifies retry.lifecycle.store
      ensures Handled(old(retry.lifecycle.store.db), retry.lifecycle.store.db, cmd, w, retry.cfg, ttl, r, p)
    {
      hide DenialHandled, AskHandled, PlanHandled, Visible;
      p := Refused;
      if w.tool.None? { return Err(ToolNotFound), p; }
      var tool := w.tool.value;
      if !Visible(tool.visibility, w.kind) { return Err(ToolNotVisible), p; }
      if !w.argumentsValid { return Err(ArgumentsInvalid), p; }
      if cmd.idempotencyKey.Some? && !tool.sideEffect.IdempotentWrite? { return Err(KeyNotAllowed), p; }
      if tool.sideEffect.IdempotentWrite? && cmd.idempotencyKey.None? { return Err(KeyRequired), p; }
      var call := CallBy(cmd, w, tool);
      if w.effect.Deny? {
        var error, auditId, now := RecordDenial(call, w.reasonCode);
        return Err(error), DenialRecorded(auditId, now);
      }
      if w.effect.RequireApproval? && cmd.approvalId.None? {
        if approvals.None? { return Err(ApprovalNeeded(None)), p; }
        var error, id, auditId, now := AskForApproval(approvals.value, call, tool.toolId, w.reasonCode);
        return Err(error), ApprovalAsked(id, auditId, now);
      }
      if !w.egressAllowed { return Err(EgressRefused), p; }
      if tool.needsCredential && !w.credentialsConfigured { return Err(CredentialsNotConfigured), p; }
      if tool.needsCredential && !w.bindingFound { return Err(BindingNotFound), p; }
      r, p := PlanAndRun(PlanOf(cmd, w), tool);
    }
  }
}
