/**
 When a call leaves an attempt in flight: exactly when the executor reported a
 status that an attempt cannot store, over whole calls and over every interleaving.
 */
module CallLeaks {
  import opened Common
  import opened Text
  import opened ExecutionDomain
  import opened ApprovalDomain
  import opened GatewayStore
  import opened GatewayInvariant
  import opened CallSession
  import opened CallSessionInvariant
  import opened CallSessionTheorems

  // ---------------------------------------------------------------- one step

  /** The executor answers a call in progress with a status outside 100..599. */
  predicate BadAnswer(phase: Phase, input: Input) {
    phase.Calling? && input.Answer? && !ValidStatus(ReportedStatus(input.reply))
  }

  lemma ReplyKeepsLeak(s: Session, cfg: Settings, n: nat, reply: Reply)
    ensures AfterReply(s, cfg, n, reply).leak == s.leak
  {
  }

  lemma StoresExactlyValid(db: Db, e: string, s: Session, cfg: Settings, reply: Reply, now: Time)
    requires RowsWellFormed(db) && AttemptsOwned(db) && Tells(db, e, s, cfg) && s.phase.Calling?
    ensures FinishAttemptTx(db, s.tenant, s.phase.attemptId, AttemptEndOf(reply), now).1.Ok? <==>
            ValidStatus(ReportedStatus(reply))
  {
    hide Counted, BacksOff, StatusFits, EarlierRetried;
  }

  /** A step loses the end of an attempt exactly if it is a bad answer, and what is lost stays lost. */
  lemma LeaksExactlyOnBadStatus(db: Db, e: string, s: Session, cfg: Settings, input: Input)
    requires Inv(db) && Tells(db, e, s, cfg)
    ensures Move(db, e, s, cfg, input).1.leak.Some? <==> s.leak.Some? || BadAnswer(s.phase, input)
  {
    hide *;
    InvParts(db);
    CallingHolds(db, e, s, cfg);
    if s.phase.Calling? && input.Answer? {
      AnswerMove(db, e, s, cfg, input);
      StoresExactlyValid(db, e, s, cfg, input.reply, input.now);
      ReplyKeepsLeak(s, cfg, s.phase.retries, input.reply);
    } else {
      OthersKeepLeak(db, e, s, cfg, input);
    }
    BadAnswerIs(s.phase, input);
  }

  lemma BadAnswerIs(phase: Phase, input: Input)
    ensures BadAnswer(phase, input) <==> phase.Calling? && input.Answer? && !ValidStatus(ReportedStatus(input.reply))
  {
  }

  lemma CallingHolds(db: Db, e: string, s: Session, cfg: Settings)
    requires Tells(db, e, s, cfg)
    ensures s.phase.Calling? ==> s.leak.None?
  {
  }

  lemma OthersKeepLeak(db: Db, e: string, s: Session, cfg: Settings, input: Input)
    requires !(s.phase.Calling? && input.Answer?)
    ensures Move(db, e, s, cfg, input).1.leak == s.leak
  {
    hide StartAttemptTx, FinishAttemptTx, FinishTx, Unexpected;
  }

  // -------------------------------------------------------------- whole calls

  lemma {:induction false} DriveTells(db: Db, e: string, s: Session, cfg: Settings, inputs: seq<Input>)
    requires Inv(db) && Tells(db, e, s, cfg)
    ensures var (after, s') := Drive(db, e, s, cfg, inputs); Inv(after) && Tells(after, e, s', cfg)
  {
    hide Inv, Tells, Move;
    if inputs != [] {
      var n := |inputs| - 1;
      DriveTells(db, e, s, cfg, inputs[..n]);
      var (mid, session) := Drive(db, e, s, cfg, inputs[..n]);
      MoveTells(mid, e, session, cfg, inputs[n]);
    }
  }

  /** Input number i of a call is a bad answer. */
  predicate AnswersBadly(db: Db, e: string, s: Session, cfg: Settings, inputs: seq<Input>, i: nat) {
    i < |inputs| && BadAnswer(Drive(db, e, s, cfg, inputs[..i]).1.phase, inputs[i])
  }

  lemma AnswersBadlyEarlier(db: Db, e: string, s: Session, cfg: Settings, inputs: seq<Input>, i: nat)
    requires i < |inputs|
    ensures AnswersBadly(db, e, s, cfg, inputs, i) <==>
            if i < |inputs| - 1 then AnswersBadly(db, e, s, cfg, inputs[..|inputs| - 1], i)
            else BadAnswer(Drive(db, e, s, cfg, inputs[..|inputs| - 1]).1.phase, inputs[|inputs| - 1])
  {
    hide Drive, BadAnswer;
    if i < |inputs| - 1 {
      assert inputs[..|inputs| - 1][..i] == inputs[..i];
    }
  }

  /** A whole call loses the end of an attempt exactly if one of its inputs is a bad answer. */
  lemma {:induction false} CallLeaksExactly(db: Db, e: string, s: Session, cfg: Settings, inputs: seq<Input>)
    requires Inv(db) && Tells(db, e, s, cfg) && s.leak.None?
    ensures Drive(db, e, s, cfg, inputs).1.leak.Some? <==> exists i: nat :: AnswersBadly(db, e, s, cfg, inputs, i)
  {
    hide Inv, Tells, Move, BadAnswer;
    if inputs != [] {
      var n := |inputs| - 1;
      CallLeaksExactly(db, e, s, cfg, inputs[..n]);
      DriveTells(db, e, s, cfg, inputs[..n]);
      var (mid, session) := Drive(db, e, s, cfg, inputs[..n]);
      LeaksExactlyOnBadStatus(mid, e, session, cfg, inputs[n]);
      AnswersBadlyEarlier(db, e, s, cfg, inputs, n);
      if exists i: nat :: AnswersBadly(db, e, s, cfg, inputs, i) {
        var i: nat :| AnswersBadly(db, e, s, cfg, inputs, i);
        AnswersBadlyEarlier(db, e, s, cfg, inputs, i);
      }
      if exists i: nat :: AnswersBadly(db, e, s, cfg, inputs[..n], i) {
        var i: nat :| AnswersBadly(db, e, s, cfg, inputs[..n], i);
        AnswersBadlyEarlier(db, e, s, cfg, inputs, i);
      }
    }
  }

  /** Some attempt of e is in flight. */
  ghost predicate LeftInFlight(db: Db, e: string) {
    exists k :: Owns(db, e, k) && db.attempts[k].status.InFlight?
  }

  lemma InFlightIsLeak(db: Db, e: string, s: Session, cfg: Settings)
    requires Tells(db, e, s, cfg) && !s.phase.Calling?
    ensures LeftInFlight(db, e) <==> s.leak.Some?
  {
    hide Counted, BacksOff, StatusFits, EarlierRetried;
    if s.leak.Some? {
      assert Owns(db, e, s.leak.value);
    }
  }

  // ------------------------------------------------------- every interleaving

  ghost predicate Leaked(sys: System, e: string) {
    e in sys.sessions && sys.sessions[e].leak.Some?
  }

  /** An action gives the call of e a bad answer. */
  predicate AnsweredBadly(sys: System, action: Action, e: string) {
    action.Advance? && action.e == e && e in sys.sessions && BadAnswer(sys.sessions[e].phase, action.input)
  }

  lemma ActLeaks(sys: System, cfg: Settings, action: Action, e: string)
    requires SystemInv(sys, cfg)
    ensures Leaked(Act(sys, cfg, action), e) <==> Leaked(sys, e) || AnsweredBadly(sys, action, e)
  {
    hide SystemInv, Move, PlanTx, Apply, BadAnswer;
    if action.Advance? && action.e == e && e in sys.sessions {
      ActTells(sys, cfg, e);
      LeaksExactlyOnBadStatus(sys.db, e, sys.sessions[e], cfg, action.input);
    } else if action.Open? && PlanTx(sys.db, action.plan, action.seen, action.id, action.auditId, action.now).1.Ok? {
      if e in sys.sessions { OpensElsewhere(sys, cfg, action, e); }
    }
  }

  lemma ActTells(sys: System, cfg: Settings, e: string)
    requires SystemInv(sys, cfg) && e in sys.sessions
    ensures Inv(sys.db) && Tells(sys.db, e, sys.sessions[e], cfg)
  {
    hide Inv, Tells, CallsLogged;
  }

  /** Action number i of a schedule gives the call of e a bad answer. */
  predicate BadlyAt(sys: System, cfg: Settings, actions: seq<Action>, e: string, i: nat) {
    i < |actions| && AnsweredBadly(Schedule(sys, cfg, actions[..i]), actions[i], e)
  }

  lemma BadlyLater(sys: System, cfg: Settings, actions: seq<Action>, e: string, i: nat)
    requires i < |actions|
    ensures BadlyAt(sys, cfg, actions, e, i) <==>
            if i == 0 then AnsweredBadly(sys, actions[0], e)
            else BadlyAt(Act(sys, cfg, actions[0]), cfg, actions[1..], e, i - 1)
  {
    hide Act, AnsweredBadly;
    if i > 0 {
      assert actions[..i][1..] == actions[1..][..i - 1];
    }
  }

  lemma {:induction false} ScheduleLeaks(sys: System, cfg: Settings, actions: seq<Action>, e: string)
    requires SystemInv(sys, cfg)
    ensures Leaked(Schedule(sys, cfg, actions), e) <==>
            Leaked(sys, e) || exists i: nat :: BadlyAt(sys, cfg, actions, e, i)
    decreases |actions|
  {
    hide SystemInv, Act, AnsweredBadly, Leaked;
    if actions != [] {
      var next, rest := Act(sys, cfg, actions[0]), actions[1..];
      ActKeeps(sys, cfg, actions[0]);
      ActLeaks(sys, cfg, actions[0], e);
      ScheduleLeaks(next, cfg, rest, e);
      BadlyLater(sys, cfg, actions, e, 0);
      if exists i: nat :: BadlyAt(sys, cfg, actions, e, i) {
        var i: nat :| BadlyAt(sys, cfg, actions, e, i);
        BadlyLater(sys, cfg, actions, e, i);
      }
      if exists i: nat :: BadlyAt(next, cfg, rest, e, i) {
        var i: nat :| BadlyAt(next, cfg, rest, e, i);
        BadlyLater(sys, cfg, actions, e, i + 1);
      }
    }
  }

  /**
   In every interleaving of calls and approval transactions: a call that has
   finished has left an attempt in flight exactly if, while it was calling, the
   executor once reported a status outside 100..599.
   */
  lemma FinishedLeavesInFlightExactly(cfg: Settings, actions: seq<Action>, e: string)
    requires e in Schedule(INITIAL, cfg, actions).sessions
    requires Schedule(INITIAL, cfg, actions).sessions[e].phase.Finished?
    ensures LeftInFlight(Schedule(INITIAL, cfg, actions).db, e) <==>
            exists i: nat :: BadlyAt(INITIAL, cfg, actions, e, i)
  {
    hide Schedule, BadlyAt, Inv, Tells, LeftInFlight;
    EmptyStore();
    ScheduleLeaks(INITIAL, cfg, actions, e);
    Told(cfg, actions, e);
    InFlightIsLeak(Schedule(INITIAL, cfg, actions).db, e, Schedule(INITIAL, cfg, actions).sessions[e], cfg);
  }

  // ------------------------------------------------------------------ witness

  const ONE_TRY := Settings(1, 0.0)
  const PLAN := PlanCommand(Call("t", "p", "v", "d", "1", None), "tool", "b", "allowed", ReadOnly, None)
  const STATUS_600 := Failure("upstream_600", Upstream5xx, false, Some(600))

  /** One call, from its plan to its end, whose upstream answers with status 600. */
  const BAD_RUN := [
    Open(PLAN, None, "e", "x", 0), Advance("e", SecretResolved), Advance("e", Start("a", 1)),
    Advance("e", Answer(STATUS_600, 2)), Advance("e", Close("y", 3))]

  const PLANNED := NewExecution(PLAN, "e", 0)
  const RUNNING := Attempt("a", "t", "e", 1, InFlight, 1, None, None, None, None)
  const AFTER_PLAN := Db(map["e" := PLANNED], map[], map[], [ExecutionAudit(PLANNED, Allowed, "x", 0)])
  const AFTER_START :=
    AFTER_PLAN.(executions := map["e" := PLANNED.(attemptCount := 1)], attempts := map["a" := RUNNING])

  lemma NamesAreNotBlank()
    ensures PLANNED.Named() && RUNNING.Named()
    ensures !Blank("t") && !Blank("p") && !Blank("v") && !Blank("x") && !Blank("y")
  {
    hide Blank;
    NotBlank("e");
    NotBlank("t");
    NotBlank("p");
    NotBlank("tool");
    NotBlank("v");
    NotBlank("b");
    NotBlank("d");
    NotBlank("1");
    NotBlank("allowed");
    NotBlank("a");
    NotBlank("x");
    NotBlank("y");
  }

  lemma FirstPlans()
    ensures PlanTx(EMPTY, PLAN, None, "e", "x", 0) == (AFTER_PLAN, Ok(PLANNED))
  {
    hide Blank, NoneBlank;
    NamesAreNotBlank();
    assert EMPTY.executions["e" := PLANNED] == AFTER_PLAN.executions;
    assert EMPTY.audits + AFTER_PLAN.audits == AFTER_PLAN.audits;
  }

  lemma ThenStarts()
    ensures StartAttemptTx(AFTER_PLAN, "t", "e", "a", 1) == (AFTER_START, Ok(RUNNING))
  {
    hide Blank, NoneBlank;
    NamesAreNotBlank();
    var working := AFTER_PLAN.(executions := AFTER_PLAN.executions["e" := PLANNED.(attemptCount := 1)]);
    assert working.executions == AFTER_START.executions && AddAttempt(working, RUNNING) == Ok(AFTER_START);
  }

  lemma ThenCannotEnd()
    ensures FinishAttemptTx(AFTER_START, "t", "a", AttemptEndOf(STATUS_600), 2) == (AFTER_START, Err(Invalid))
  {
  }

  lemma ThenCloses()
    ensures var (after, closed) := FinishTx(AFTER_START, "t", "e", Fail(UNEXPECTED, UnknownCategory, true), "y", 3);
            && closed.Ok? && after.attempts == AFTER_START.attempts
            && "e" in after.executions && after.executions["e"].status.OutcomeUnknown?
  {
    hide Blank, NoneBlank;
    NamesAreNotBlank();
  }

  const CALLING := Opened(PLAN).(phase := Calling(0, "a"), sent := 1)
  const SENT := System(AFTER_START, map["e" := CALLING], ["e"])

  lemma FirstHalf()
    ensures Schedule(INITIAL, ONE_TRY, BAD_RUN) == Schedule(SENT, ONE_TRY, BAD_RUN[3..])
  {
    hide PlanTx, StartAttemptTx, NewExecution, ExecutionAudit;
    FirstPlans();
    ThenStarts();
    var s1 := Act(INITIAL, ONE_TRY, BAD_RUN[0]);
    assert s1 == System(AFTER_PLAN, map["e" := Opened(PLAN)], []);
    var s2 := Act(s1, ONE_TRY, BAD_RUN[1]);
    assert s2 == System(AFTER_PLAN, map["e" := Opened(PLAN).(phase := Ready(0))], []);
    assert Act(s2, ONE_TRY, BAD_RUN[2]) == SENT;
    ScheduleOne(s2, BAD_RUN[2..]);
    ScheduleOne(s1, BAD_RUN[1..]);
    ScheduleOne(INITIAL, BAD_RUN);
  }

  const LOST := CALLING.(phase := Unexpected(), leak := Some("a"))

  lemma SecondHalf()
    ensures Schedule(SENT, ONE_TRY, BAD_RUN[3..]) ==
            Act(System(AFTER_START, map["e" := LOST], ["e"]), ONE_TRY, BAD_RUN[4])
  {
    hide FinishAttemptTx, FinishTx, NewExecution, ExecutionAudit, AttemptEndOf;
    ThenCannotEnd();
    var s4 := Act(SENT, ONE_TRY, BAD_RUN[3]);
    assert s4 == System(AFTER_START, map["e" := LOST], ["e"]);
    ScheduleOne(s4, BAD_RUN[4..]);
    ScheduleOne(SENT, BAD_RUN[3..]);
  }

  /** A finished call with a terminal execution can leave its attempt in flight. */
  lemma FinishedWithAnAttemptInFlight()
    ensures var sys := Schedule(INITIAL, ONE_TRY, BAD_RUN);
            && "e" in sys.sessions && sys.sessions["e"].phase.Finished?
            && "e" in sys.db.executions && sys.db.executions["e"].status.OutcomeUnknown?
            && LeftInFlight(sys.db, "e")
  {
    hide FinishTx, Schedule, NewExecution, ExecutionAudit;
    FirstHalf();
    SecondHalf();
    ThenCloses();
    var last := Act(System(AFTER_START, map["e" := LOST], ["e"]), ONE_TRY, BAD_RUN[4]);
    assert Owns(last.db, "e", "a");
  }

  lemma ScheduleOne(sys: System, actions: seq<Action>)
    requires actions != []
    ensures Schedule(sys, ONE_TRY, actions) == Schedule(Act(sys, ONE_TRY, actions[0]), ONE_TRY, actions[1..])
  {
  }
}
