/**
 One tool call from its plan to its end, as the sequence of its atomic steps:
 what CallTool and its retry loop do between two awaits, together with the
 lifecycle transaction that step commits.  Many calls, and the transactions of
 approvers, interleave over one store.
 */
module CallSession {
  import opened Common
  import opened ExecutionDomain
  import opened GatewayStore

  /** The retry settings; the constructor refuses anything else. */
  datatype RawSettings = Settings(maxAttempts: int, initialBackoff: real)
  type Settings = c: RawSettings | c.maxAttempts > 0 && c.initialBackoff >= 0.0 witness Settings(1, 0.0)

  /** The errors CallTool raises once an execution is planned. */
  datatype PublicError =
    | SecretError | CredentialResolution | CallCancelledError
    | UnknownOutcome(code: string) | InvalidArguments(code: string) | NotAuthorized(code: string)
    | UpstreamTimeout(code: string) | UpstreamUnavailable(code: string) | UpstreamResponse(code: string)

  datatype Outcome = Returned(upstreamStatus: Option<int>) | Raised(error: PublicError)

  /** What the upstream executor may do: return, be cancelled, report a failure, or raise something else. */
  datatype Reply =
    | Response(upstreamStatus: Option<int>)
    | CancelledReply
    | Failure(code: string, category: Category, outcomeUnknown: bool, upstreamStatus: Option<int>)
    | Crash

  datatype Phase =
    | Resolving
    | Ready(retries: nat)
    | Calling(retries: nat, attemptId: string)
    | Napping(retries: nat)
    | Closing(end: ExecutionEnd, outcome: Outcome)
    | Finished(end: ExecutionEnd, outcome: Outcome, attemptCount: int)
    | Abandoned

  /**
   `sent` counts the upstream calls, `naps` lists the back-off sleeps, `leak` is an
   attempt whose end could not be stored.
   */
  datatype Session = Session(tenant: string, sideEffect: SideEffect, hasKey: bool, phase: Phase,
                             sent: nat, naps: seq<real>, leak: Option<string>)

  /** What happens next to a session, with the readings of clock and id generator its transaction uses. */
  datatype Input =
    | SecretResolved
    | SecretFailed(known: Option<string>)
    | Start(attemptId: string, now: Time)
    | Answer(reply: Reply, now: Time)
    | Wake
    | CancelNap
    | Close(auditId: string, now: Time)

  const UNEXPECTED := "unexpected_executor_failure"
  const CRASHED := AttemptFailed(UNEXPECTED, UnknownCategory, true, None)

  /** The sleep before retry n + 1. */
  function Backoff(cfg: Settings, n: nat): real {
    cfg.initialBackoff * Pow2(n) as real
  }

  function AttemptEndOf(reply: Reply): AttemptEnd {
    match reply
    case Response(upstreamStatus) => AttemptSucceeded(upstreamStatus)
    case CancelledReply => AttemptCancelled
    case Failure(code, category, unknown, upstreamStatus) => AttemptFailed(code, category, unknown, upstreamStatus)
    case Crash => CRASHED
  }

  /** The upstream status an answer reports. */
  function ReportedStatus(reply: Reply): Option<int> {
    if reply.Response? || reply.Failure? then reply.upstreamStatus else None
  }

  /** `_public_executor_error` */
  function PublicExecutorError(code: string, category: Category, outcomeUnknown: bool): PublicError {
    if outcomeUnknown then UnknownOutcome(code)
    else if category.Validation? then InvalidArguments(code)
    else if category.Authorization? then NotAuthorized(code)
    else if category in {TimeoutBeforeSend, TimeoutAfterSend} then UpstreamTimeout(code)
    else if category in {Network, Upstream5xx} then UpstreamUnavailable(code)
    else UpstreamResponse(code)
  }

  /** Any exception the executor is not meant to raise ends the call with an unknown outcome. */
  function Unexpected(): Phase {
    Closing(Fail(UNEXPECTED, UnknownCategory, true), Raised(UnknownOutcome("unexpected executor failure")))
  }

  /** A reported failure that is not retried; a read-only call cannot have done anything, so its outcome is known. */
  function GivesUp(sideEffect: SideEffect, disposition: Disposition, code: string, category: Category,
                   outcomeUnknown: bool): Phase {
    var unknown := outcomeUnknown && !(sideEffect.ReadOnly? && !disposition.RequireReconciliation?);
    Closing(Fail(code, category, unknown), Raised(PublicExecutorError(code, category, unknown)))
  }

  /** The session after a reply whose attempt end is stored. */
  function AfterReply(s: Session, cfg: Settings, n: nat, reply: Reply): Session {
    match reply
    case Response(upstreamStatus) => s.(phase := Closing(Succeed, Returned(upstreamStatus)))
    case CancelledReply => s.(phase := Closing(Cancel, Raised(CallCancelledError)))
    case Crash => s.(phase := Unexpected())
    case Failure(code, category, unknown, _) =>
      var disposition := RetryDisposition(s.sideEffect, category, s.hasKey);
      if disposition.Retry? && n + 1 < cfg.maxAttempts then
        s.(phase := Napping(n), naps := s.naps + [Backoff(cfg, n)])
      else s.(phase := GivesUp(s.sideEffect, disposition, code, category, unknown))
  }

  /** One step of the session that runs execution e; an input that does not fit the phase changes nothing. */
  function Move(db: Db, e: string, s: Session, cfg: Settings, input: Input): (Db, Session) {
    match (s.phase, input)
    case (Resolving, SecretResolved) => (db, s.(phase := Ready(0)))
    case (Resolving, SecretFailed(known)) =>
      (db, s.(phase :=
         match known
         case Some(code) => Closing(Fail(code, Credential, false), Raised(SecretError))
         case None => Closing(Fail("credential_resolution_failed", Credential, false), Raised(CredentialResolution))))
    case (Ready(n), Start(attemptId, now)) =>
      var (after, outcome) := StartAttemptTx(db, s.tenant, e, attemptId, now);
      if outcome.Ok? then (after, s.(phase := Calling(n, attemptId), sent := s.sent + 1))
      else (after, s.(phase := Unexpected()))
    case (Calling(n, attemptId), Answer(reply, now)) =>
      var (after, outcome) := FinishAttemptTx(db, s.tenant, attemptId, AttemptEndOf(reply), now);
      if outcome.Ok? then (after, AfterReply(s, cfg, n, reply))
      else (after, s.(phase := Unexpected(), leak := Some(attemptId)))
    case (Napping(n), Wake) => (db, s.(phase := Ready(n + 1)))
    case (Napping(n), CancelNap) => (db, s.(phase := Closing(Cancel, Raised(CallCancelledError))))
    case (Closing(end, outcome), Close(auditId, now)) =>
      var (after, closed) := FinishTx(db, s.tenant, e, end, auditId, now);
      if closed.Ok? then (after, s.(phase := Finished(end, outcome, closed.value.attemptCount)))
      else (after, s.(phase := Abandoned))
    case _ => (db, s)
  }

  /** The inputs that fit a phase. */
  predicate Fits(phase: Phase, input: Input) {
    match phase
    case Resolving => input.SecretResolved? || input.SecretFailed?
    case Ready(_) => input.Start?
    case Calling(_, _) => input.Answer?
    case Napping(_) => input.Wake? || input.CancelNap?
    case Closing(_, _) => input.Close?
    case _ => false
  }

  /** A session's steps one after the other, when nobody else commits in between. */
  function Drive(db: Db, e: string, s: Session, cfg: Settings, inputs: seq<Input>): (Db, Session) {
    if inputs == [] then (db, s)
    else
      var (before, session) := Drive(db, e, s, cfg, inputs[..|inputs| - 1]);
      Move(before, e, session, cfg, inputs[|inputs| - 1])
  }

  // ------------------------------------------------------------- all sessions

  /** The store, the session of every execution, and the log of upstream calls (the execution each was made for). */
  datatype System = System(db: Db, sessions: map<string, Session>, calls: seq<string>)

  datatype Action =
    | Open(plan: PlanCommand, seen: Option<Execution>, id: string, auditId: string, now: Time)
    | Advance(e: string, input: Input)
    | Others(step: Step)

  function Opened(cmd: PlanCommand): Session {
    Session(cmd.call.tenant, cmd.sideEffect, cmd.call.idempotencyKey.Some?, Resolving, 0, [], None)
  }

  /** Approval and record transactions; the other steps belong to sessions. */
  predicate Outside(step: Step) {
    step.Request? || step.DecideOn? || step.ConsumeAlone? || step.Record?
  }

  function Act(sys: System, cfg: Settings, action: Action): System {
    match action
    case Open(plan, seen, id, auditId, now) =>
      var (after, outcome) := PlanTx(sys.db, plan, seen, id, auditId, now);
      if outcome.Ok? then System(after, sys.sessions[id := Opened(plan)], sys.calls) else sys.(db := after)
    case Advance(e, input) =>
      if e !in sys.sessions then sys
      else
        var (after, s) := Move(sys.db, e, sys.sessions[e], cfg, input);
        System(after, sys.sessions[e := s], if s.sent > sys.sessions[e].sent then sys.calls + [e] else sys.calls)
    case Others(step) => if Outside(step) then sys.(db := Apply(sys.db, step)) else sys
  }

  /** Every interleaving of any number of calls with the approval transactions. */
  function Schedule(sys: System, cfg: Settings, actions: seq<Action>): System
    decreases |actions|
  {
    if actions == [] then sys else Schedule(Act(sys, cfg, actions[0]), cfg, actions[1..])
  }

  const INITIAL := System(EMPTY, map[], [])
}
