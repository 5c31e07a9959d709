/** What every interleaving of calls keeps: a session and the rows of its execution tell the same story. */
module CallSessionInvariant {
  import opened Common
  import opened ExecutionDomain
  import opened GatewayStore
  import opened GatewayInvariant
  import opened CallSession

  // --------------------------------------------------------- one session

  /** The execution a session runs: its claim is the one the session was opened for. */
  ghost predicate Bound(db: Db, e: string, s: Session) {
    && e in db.executions && db.executions[e].tenant == s.tenant && db.executions[e].sideEffect == s.sideEffect
    && s.hasKey == db.executions[e].idempotencyKey.Some? && db.executions[e].attemptCount == s.sent
  }

  /** How many calls and naps lie behind each phase. */
  ghost predicate Counted(s: Session, cfg: Settings) {
    var naps := |s.naps|;
    match s.phase
    case Resolving => s.sent == 0 && naps == 0
    case Ready(n) => s.sent == n == naps && n < cfg.maxAttempts
    case Calling(n, _) => s.sent == n + 1 && naps == n && n < cfg.maxAttempts
    case Napping(n) => s.sent == n + 1 == naps && naps < cfg.maxAttempts
    case Closing(end, _) =>
      s.sent <= cfg.maxAttempts && (naps == s.sent || naps + 1 == s.sent) && (end.Succeed? ==> naps + 1 == s.sent)
    case Finished(end, _, n) =>
      s.sent <= cfg.maxAttempts && (naps == s.sent || naps + 1 == s.sent) && (end.Succeed? ==> naps + 1 == s.sent) &&
        n == s.sent
    case Abandoned => s.sent <= cfg.maxAttempts && (naps == s.sent || naps + 1 == s.sent)
  }

  ghost predicate BacksOff(naps: seq<real>, cfg: Settings) {
    forall i :: 0 <= i < |naps| ==> naps[i] == Backoff(cfg, i)
  }

  /** How the caller's answer and the stored end agree. */
  ghost predicate Agree(sideEffect: SideEffect, end: ExecutionEnd, outcome: Outcome) {
    && (end.Succeed? <==> outcome.Returned?)
    && (end.Cancel? <==> outcome == Raised(CallCancelledError))
    && (EndedStatus(end).OutcomeUnknown? <==> outcome.Raised? && outcome.error.UnknownOutcome?)
    && (sideEffect.ReadOnly? && EndedStatus(end).OutcomeUnknown? ==> end == Fail(UNEXPECTED, UnknownCategory, true))
  }

  /** The execution is running until its session finishes, and then ends as the session says. */
  ghost predicate StatusFits(x: Execution, s: Session) {
    match s.phase
    case Closing(end, outcome) => x.status.Running? && Agree(s.sideEffect, end, outcome)
    case Finished(end, outcome, _) => x.status == EndedStatus(end) && Agree(s.sideEffect, end, outcome)
    case _ => x.status.Running?
  }

  predicate Owns(db: Db, e: string, k: string) {
    k in db.attempts && db.attempts[k].executionId == e
  }

  /** Only the attempt being called, or one whose end could not be stored, is in flight. */
  ghost predicate Settled(db: Db, e: string, s: Session) {
    && (s.phase.Calling? ==>
        Owns(db, e, s.phase.attemptId) && db.attempts[s.phase.attemptId].number == s.sent && s.leak.None?)
    && (s.phase in {Resolving} || s.phase.Ready? || s.phase.Napping? ==> s.leak.None?)
    && (s.leak.Some? ==> Owns(db, e, s.leak.value) && db.attempts[s.leak.value].status.InFlight?)
    && (forall k :: Owns(db, e, k) ==>
          (db.attempts[k].status.InFlight? <==> s.leak == Some(k) || (s.phase.Calling? && s.phase.attemptId == k)))
  }

  /** The first `naps` attempts, each followed by a nap, failed in a way that allows a retry. */
  ghost predicate EarlierRetried(db: Db, e: string, naps: nat, sideEffect: SideEffect, hasKey: bool) {
    forall k :: Owns(db, e, k) && db.attempts[k].number <= naps ==> Retried(db.attempts[k], sideEffect, hasKey)
  }

  ghost predicate Retried(a: Attempt, sideEffect: SideEffect, hasKey: bool) {
    a.status in {Broken, Unclear} && a.errorCategory.Some? &&
      RetryDisposition(sideEffect, a.errorCategory.value, hasKey).Retry?
  }

  ghost predicate Tells(db: Db, e: string, s: Session, cfg: Settings) {
    && Bound(db, e, s) && Counted(s, cfg) && BacksOff(s.naps, cfg) && StatusFits(db.executions[e], s)
    && Settled(db, e, s) && EarlierRetried(db, e, |s.naps|, s.sideEffect, s.hasKey)
  }

  // ------------------------------------------------------------- one move

  /** A move of the session of e leaves every other execution, its attempts and all approvals alone. */
  ghost predicate OthersKept(before: Db, after: Db, e: string) {
    && before.executions.Keys <= after.executions.Keys && after.executions.Keys <= before.executions.Keys + {e}
    && (forall f <- before.executions :: f != e ==> after.executions[f] == before.executions[f])
    && (forall f, k :: f != e ==> (Owns(before, f, k) <==> Owns(after, f, k)))
    && (forall f, k :: f != e && Owns(before, f, k) ==> after.attempts[k] == before.attempts[k])
  }

  lemma OthersTell(before: Db, after: Db, e: string, f: string, s: Session, cfg: Settings)
    requires OthersKept(before, after, e) && f != e && Tells(before, f, s, cfg)
    ensures Tells(after, f, s, cfg)
  {
    hide Counted, BacksOff, StatusFits, Retried;
  }

  /** A move that commits nothing. */
  lemma QuietMove(db: Db, e: string, s: Session, cfg: Settings, input: Input)
    requires Tells(db, e, s, cfg) && (input.SecretResolved? || input.SecretFailed? || input.Wake? || input.CancelNap?)
    ensures var (after, s') := Move(db, e, s, cfg, input); after == db && Tells(db, e, s', cfg)
  {
  }

  lemma StartFails(db: Db, e: string, s: Session, cfg: Settings)
    requires Tells(db, e, s, cfg) && s.phase.Ready?
    ensures Tells(db, e, s.(phase := Unexpected()), cfg)
  {
  }

  lemma Starts(before: Db, after: Db, e: string, s: Session, cfg: Settings, a: Attempt)
    requires Tells(before, e, s, cfg) && s.phase.Ready? && Attempted(before, after, e, a) && AttemptsOwned(before)
    ensures Tells(after, e, s.(phase := Calling(s.phase.retries, a.id), sent := s.sent + 1), cfg)
    ensures OthersKept(before, after, e)
  {
    hide BacksOff, Retried;
  }

  lemma AnswerEnds(before: Db, after: Db, e: string, s: Session, cfg: Settings, a: Attempt, end: ExecutionEnd,
                   outcome: Outcome)
    requires Tells(before, e, s, cfg) && s.phase.Calling? && AttemptsDistinct(before)
    requires AttemptEnded(before, after, s.phase.attemptId, a) && Agree(s.sideEffect, end, outcome)
    ensures Tells(after, e, s.(phase := Closing(end, outcome)), cfg)
  {
    hide BacksOff, Retried, Agree;
  }

  lemma AnswerRetries(before: Db, after: Db, e: string, s: Session, cfg: Settings, a: Attempt, nap: real)
    requires Tells(before, e, s, cfg) && s.phase.Calling? && AttemptsDistinct(before)
    requires AttemptEnded(before, after, s.phase.attemptId, a) && Retried(a, s.sideEffect, s.hasKey)
    requires s.phase.retries + 1 < cfg.maxAttempts && nap == Backoff(cfg, s.phase.retries)
    ensures Tells(after, e, s.(phase := Napping(s.phase.retries), naps := s.naps + [nap]), cfg)
  {
    hide BacksOff, Retried, Agree;
    NapsGrow(s.naps, nap, cfg);
    EarlierGrow(before, after, e, s, cfg, a);
  }

  lemma NapsGrow(naps: seq<real>, nap: real, cfg: Settings)
    requires BacksOff(naps, cfg) && nap == Backoff(cfg, |naps|)
    ensures BacksOff(naps + [nap], cfg)
  {
    hide Backoff;
  }

  lemma EarlierGrow(before: Db, after: Db, e: string, s: Session, cfg: Settings, a: Attempt)
    requires Tells(before, e, s, cfg) && s.phase.Calling? && AttemptsDistinct(before)
    requires AttemptEnded(before, after, s.phase.attemptId, a) && Retried(a, s.sideEffect, s.hasKey)
    ensures EarlierRetried(after, e, |s.naps| + 1, s.sideEffect, s.hasKey)
  {
    hide BacksOff, StatusFits, Retried;
  }

  lemma AnswerOthers(before: Db, after: Db, e: string, s: Session, cfg: Settings, a: Attempt)
    requires Tells(before, e, s, cfg) && s.phase.Calling? && AttemptEnded(before, after, s.phase.attemptId, a)
    ensures OthersKept(before, after, e)
  {
    hide Counted, BacksOff, StatusFits, Retried;
  }

  lemma AnswerStored(before: Db, after: Db, e: string, s: Session, cfg: Settings, a: Attempt, reply: Reply)
    requires Tells(before, e, s, cfg) && s.phase.Calling? && AttemptsDistinct(before)
    requires AttemptEnded(before, after, s.phase.attemptId, a)
    requires reply.Failure? ==> a.status in {Broken, Unclear} && a.errorCategory == Some(reply.category)
    ensures Tells(after, e, AfterReply(s, cfg, s.phase.retries, reply), cfg)
  {
    hide Tells, AttemptsDistinct, AttemptEnded, RetryDisposition, Backoff, PublicExecutorError;
    var s' := AfterReply(s, cfg, s.phase.retries, reply);
    if s'.phase.Napping? {
      AnswerRetries(before, after, e, s, cfg, a, Backoff(cfg, s.phase.retries));
    } else {
      ReplyAgrees(s, cfg, reply);
      AnswerEnds(before, after, e, s, cfg, a, s'.phase.end, s'.phase.outcome);
    }
  }

  lemma ReplyAgrees(s: Session, cfg: Settings, reply: Reply)
    requires s.phase.Calling?
    ensures var s' := AfterReply(s, cfg, s.phase.retries, reply);
            s'.phase.Napping? || (s'.phase.Closing? && Agree(s.sideEffect, s'.phase.end, s'.phase.outcome))
  {
  }

  lemma AnswerLost(db: Db, e: string, s: Session, cfg: Settings)
    requires Tells(db, e, s, cfg) && s.phase.Calling?
    ensures Tells(db, e, s.(phase := Unexpected(), leak := Some(s.phase.attemptId)), cfg)
  {
  }

  lemma CloseFails(db: Db, e: string, s: Session, cfg: Settings)
    requires Tells(db, e, s, cfg) && s.phase.Closing?
    ensures Tells(db, e, s.(phase := Abandoned), cfg)
  {
  }

  lemma Closes(before: Db, after: Db, e: string, s: Session, cfg: Settings, now: Time, audit: Audit)
    requires Tells(before, e, s, cfg) && s.phase.Closing? && Ended(before, after, e, s.phase.end, now, audit)
    ensures Tells(after, e, s.(phase := Finished(s.phase.end, s.phase.outcome, after.executions[e].attemptCount)), cfg)
    ensures OthersKept(before, after, e)
  {
    hide BacksOff, Retried, Agree;
  }

  lemma MoveStarts(db: Db, e: string, s: Session, cfg: Settings, input: Input)
    requires Inv(db) && Tells(db, e, s, cfg) && s.phase.Ready? && input.Start?
    ensures var (after, s') := Move(db, e, s, cfg, input);
            Inv(after) && Tells(after, e, s', cfg) && OthersKept(db, after, e) &&
              s'.sent == s.sent + (if s'.phase.Calling? then 1 else 0)
  {
    hide Inv, Tells, OthersKept, StartAttemptTx, RowsWellFormed, AttemptsOwned, Attempted, Unexpected;
    InvParts(db);
    StartAttemptShape(db, s.tenant, e, input.attemptId, input.now);
    StartAttemptKeeps(db, s.tenant, e, input.attemptId, input.now);
    var (after, outcome) := StartAttemptTx(db, s.tenant, e, input.attemptId, input.now);
    if outcome.Ok? {
      Starts(db, after, e, s, cfg, outcome.value);
    } else {
      StartFails(db, e, s, cfg);
      UnexpectedCloses();
      NothingMoves(db, e);
    }
  }

  lemma UnexpectedCloses()
    ensures Unexpected().Closing?
  {
  }

  lemma NothingMoves(db: Db, e: string)
    ensures OthersKept(db, db, e)
  {
  }

  lemma AnswerMove(db: Db, e: string, s: Session, cfg: Settings, input: Input)
    requires s.phase.Calling? && input.Answer?
    ensures var (after, outcome) :=
              FinishAttemptTx(db, s.tenant, s.phase.attemptId, AttemptEndOf(input.reply), input.now);
            Move(db, e, s, cfg, input) ==
            (after, if outcome.Ok? then AfterReply(s, cfg, s.phase.retries, input.reply)
                    else s.(phase := Unexpected(), leak := Some(s.phase.attemptId)))
  {
    hide FinishAttemptTx, AfterReply, Unexpected, AttemptEndOf;
  }

  lemma MoveAnswers(db: Db, e: string, s: Session, cfg: Settings, input: Input)
    requires Inv(db) && Tells(db, e, s, cfg) && s.phase.Calling? && input.Answer?
    ensures var (after, s') := Move(db, e, s, cfg, input);
            Inv(after) && Tells(after, e, s', cfg) && OthersKept(db, after, e) && s'.sent == s.sent
  {
    hide *;
    InvParts(db);
    AnswerMove(db, e, s, cfg, input);
    CallingOwns(db, e, s, cfg);
    var end := AttemptEndOf(input.reply);
    FinishAttemptShape(db, s.tenant, s.phase.attemptId, end, input.now);
    FinishAttemptKeeps(db, s.tenant, s.phase.attemptId, end, input.now);
    var (after, outcome) := FinishAttemptTx(db, s.tenant, s.phase.attemptId, end, input.now);
    if outcome.Ok? {
      EndsAsReplied(db.attempts[s.phase.attemptId], input.reply, input.now);
      AnswerStored(db, after, e, s, cfg, outcome.value, input.reply);
      AnswerOthers(db, after, e, s, cfg, outcome.value);
      ReplyKeepsCount(s, cfg, s.phase.retries, input.reply);
    } else {
      AnswerLost(db, e, s, cfg);
      NothingMoves(db, e);
    }
  }

  lemma CallingOwns(db: Db, e: string, s: Session, cfg: Settings)
    requires Tells(db, e, s, cfg) && s.phase.Calling?
    ensures s.phase.attemptId in db.attempts
  {
  }

  lemma EndsAsReplied(a: Attempt, reply: Reply, now: Time)
    ensures var ended := EndAttempt(a, AttemptEndOf(reply), now);
            reply.Failure? ==> ended.status in {Broken, Unclear} && ended.errorCategory == Some(reply.category)
  {
  }

  lemma ReplyKeepsCount(s: Session, cfg: Settings, n: nat, reply: Reply)
    ensures AfterReply(s, cfg, n, reply).sent == s.sent
  {
  }

  lemma CloseMove(db: Db, e: string, s: Session, cfg: Settings, input: Input)
    requires s.phase.Closing? && input.Close?
    ensures var (after, closed) := FinishTx(db, s.tenant, e, s.phase.end, input.auditId, input.now);
            Move(db, e, s, cfg, input) ==
            (after, if closed.Ok? then s.(phase := Finished(s.phase.end, s.phase.outcome, closed.value.attemptCount))
                    else s.(phase := Abandoned))
  {
    hide FinishTx;
  }

  lemma MoveCloses(db: Db, e: string, s: Session, cfg: Settings, input: Input)
    requires Inv(db) && Tells(db, e, s, cfg) && s.phase.Closing? && input.Close?
    ensures var (after, s') := Move(db, e, s, cfg, input);
            Inv(after) && Tells(after, e, s', cfg) && OthersKept(db, after, e) && s'.sent == s.sent
  {
    hide *;
    InvParts(db);
    CloseMove(db, e, s, cfg, input);
    FinishShape(db, s.tenant, e, s.phase.end, input.auditId, input.now);
    FinishKeeps(db, s.tenant, e, s.phase.end, input.auditId, input.now);
    var (after, outcome) := FinishTx(db, s.tenant, e, s.phase.end, input.auditId, input.now);
    if outcome.Ok? {
      var audit := ExecutionAudit(outcome.value, EndOutcome(s.phase.end), input.auditId, input.now);
      Closes(db, after, e, s, cfg, input.now, audit);
      ClosedRow(db, s.tenant, e, s.phase.end, input.auditId, input.now);
    } else {
      CloseFails(db, e, s, cfg);
      NothingMoves(db, e);
    }
  }

  lemma ClosedRow(db: Db, tenant: string, e: string, end: ExecutionEnd, auditId: string, now: Time)
    requires RowsWellFormed(db) && FinishTx(db, tenant, e, end, auditId, now).1.Ok?
    ensures var (after, outcome) := FinishTx(db, tenant, e, end, auditId, now);
            e in after.executions && outcome.value == after.executions[e]
  {
  }

  /** Whatever a session does next, it keeps its story straight and leaves the others alone. */
  lemma MoveTells(db: Db, e: string, s: Session, cfg: Settings, input: Input)
    requires Inv(db) && Tells(db, e, s, cfg)
    ensures var (after, s') := Move(db, e, s, cfg, input);
            && Inv(after) && Tells(after, e, s', cfg) && OthersKept(db, after, e)
            && s'.sent == s.sent + (if s.phase.Ready? && s'.phase.Calling? then 1 else 0)
  {
    hide Inv, Tells, OthersKept, FinishTx, FinishAttemptTx, StartAttemptTx, AfterReply, Unexpected, RowsWellFormed;
    NothingMoves(db, e);
    if !Fits(s.phase, input) {
    } else if s.phase.Ready? {
      MoveStarts(db, e, s, cfg, input);
    } else if s.phase.Calling? {
      MoveAnswers(db, e, s, cfg, input);
    } else if s.phase.Closing? {
      MoveCloses(db, e, s, cfg, input);
    } else {
      QuietMove(db, e, s, cfg, input);
    }
  }
}
