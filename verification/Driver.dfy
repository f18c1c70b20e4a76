/** `drive_controlled`: one agent loop driven through its approval and time-budget pauses
  * to a terminal status, while its authorization may be withdrawn at any moment.
  *
  * The driver's surroundings are a tape. Each of its atomic steps reads one `Tick`: what
  * others did just before (a revocation, a cancellation), and how the step itself turned
  * out (which branch of a wait won, what the agent answered, what a check decided).
  * Quantifying over tapes quantifies over every interleaving, and a tape that runs out is
  * a run observed so far. What happened is kept as a `Log`, newest action outermost.
  */
module Driver {
  import opened Wrappers
  import opened Runs

  datatype Denial = Denial(code: string)

  datatype Other = Revoke(denial: Denial) | Cancel

  datatype Outcome = Finished(events: seq<Event>) | NeedsApproval | OutOfTime

  datatype Reply =
    | Check(denial: Option<Denial>)
    | Answer(outcome: Outcome) | Broken(message: string)
    | CancelWon | Got(item: string) | Closed
    | Look

  datatype Tick = Tick(others: seq<Other>, reply: Reply)

  datatype Call = Start | Resume(decision: string) | Continue(how: string)

  datatype Wait = ForDecision | ForContinuation

  datatype Action =
    | Happened(other: Other)
    | Verified(denial: Option<Denial>)
    | Called(call: Call)
    | Replied(outcome: Outcome)
    | Woke(wait: Wait, winner: Reply)
    | Sent(event: Event)
    | Returned(status: RunStatus)

  datatype Log = Begin | Then(before: Log, action: Action)

  function RevokedMessage(denial: Denial): string {
    "the run's authorization was withdrawn (" + denial.code + "); no further actions are taken"
  }

  /** The denial latched by the actions of `log`: the first one recorded, by a supervisor
    * or by a failed check. */
  function Latched(log: Log): Option<Denial> {
    match log
    case Begin => None
    case Then(before, action) =>
      if Latched(before).Some? then Latched(before)
      else if action.Happened? && action.other.Revoke? then Some(action.other.denial)
      else if action.Verified? then action.denial
      else None
  }

  /** Whether the cancellation token has fired; a failed check cancels the run. */
  function Cancelled(log: Log): bool {
    match log
    case Begin => false
    case Then(before, action) =>
      Cancelled(before) || action == Happened(Cancel) || (action.Verified? && action.denial.Some?)
  }

  /** The driver's own last action passed a check: no wait or call lies in between. */
  predicate Passed(log: Log) {
    match log
    case Begin => false
    case Then(before, action) =>
      if action.Happened? then Passed(before) else action == Verified(None)
  }

  /** Every call to the agent directly follows a passed check, and a check passes only
    * while no denial is latched. */
  predicate Disciplined(log: Log) {
    match log
    case Begin => true
    case Then(before, action) =>
      && Disciplined(before)
      && (action.Called? ==> Passed(before))
      && (action == Verified(None) ==> Latched(before).None?)
  }

  /** A wait ended, other than by its channel closing, with a denial already latched. */
  predicate WokeRevoked(log: Log) {
    match log
    case Begin => false
    case Then(before, action) =>
      || WokeRevoked(before)
      || (action.Woke? && action.winner != Closed && Latched(before).Some?)
  }

  /** The ending of a revoked run: why, then the terminal event, then `Cancelled`. */
  function Withdrawn(log: Log, denial: Denial): Log {
    var why := Then(log, Sent(Failure(RevokedMessage(denial))));
    Then(Then(why, Sent(RunCompleted(StopReason.Cancelled))), Returned(WasCancelled))
  }

  function Observed(log: Log, others: seq<Other>): Log
    decreases |others|
  {
    if others == [] then log else Observed(Then(log, Happened(others[0])), others[1..])
  }

  function StatusFor(reason: StopReason): RunStatus {
    match reason
    case Cancelled => WasCancelled
    case Error => Failed
    case _ => Completed
  }

  /** `status_from_events`: the status of a finished agent loop. */
  function StatusFrom(events: seq<Event>): RunStatus {
    if events != [] && events[|events| - 1].RunCompleted? then StatusFor(events[|events| - 1].reason) else Completed
  }

  /** The terminal reason the run's stream ends with, if it ends with one. */
  function LastWord(log: Log): Option<StopReason> {
    match log
    case Begin => None
    case Then(before, action) =>
      match action
      case Happened(_) => LastWord(before)
      case Returned(_) => LastWord(before)
      case Sent(event) => if event.RunCompleted? then Some(event.reason) else None
      case Replied(outcome) =>
        if outcome.Finished? && outcome.events != [] && outcome.events[|outcome.events| - 1].RunCompleted?
        then Some(outcome.events[|outcome.events| - 1].reason)
        else None
      case _ => None
  }

  /** The driver's own last action before it returned. */
  function LastOwn(log: Log): Option<Action> {
    match log
    case Begin => None
    case Then(before, action) =>
      if action.Happened? || action.Returned? then LastOwn(before) else Some(action)
  }

  /** The agent reports `Completed` exactly with its terminal event last. */
  predicate AgentFinishes(tape: seq<Tick>) {
    forall i | 0 <= i < |tape| ::
      var reply := tape[i].reply;
      reply.Answer? && reply.outcome.Finished? ==>
        var events := reply.outcome.events;
        events != [] && events[|events| - 1].RunCompleted?
  }

  /** The status a terminal reason stands for. */
  predicate StandsFor(status: RunStatus, reason: StopReason) {
    && (status.Failed? <==> reason.Error?)
    && (status.WasCancelled? <==> reason.Cancelled?)
    && (status.Completed? <==> !reason.Error? && !reason.Cancelled?)
  }

  /** A returned status is the one its stream's terminal event says, and a stream without
    * one is a cancelled run whose channel closed, or that was cancelled, not revoked,
    * while it waited for a decision. */
  predicate Agrees(log: Log, status: RunStatus) {
    match LastWord(log)
    case Some(reason) => StandsFor(status, reason)
    case None =>
      && status == WasCancelled
      && LastOwn(log).Some?
      && var own := LastOwn(log).value;
         own.Woke? && (own.winner == Closed || (own == Woke(ForDecision, CancelWon) && Latched(log).None?))
  }

  lemma {:induction false} ObservedKeeps(log: Log, others: seq<Other>)
    ensures Disciplined(Observed(log, others)) <==> Disciplined(log)
    ensures Passed(Observed(log, others)) <==> Passed(log)
    ensures WokeRevoked(Observed(log, others)) <==> WokeRevoked(log)
    ensures LastWord(Observed(log, others)) == LastWord(log)
    ensures LastOwn(Observed(log, others)) == LastOwn(log)
    ensures Latched(log).Some? ==> Latched(Observed(log, others)) == Latched(log)
    decreases |others|
  {
    if others != [] {
      ObservedKeeps(Then(log, Happened(others[0])), others[1..]);
    }
  }

  // ---------------------------------------------------------------- the driver, step by step

  /** Where the driver stands before its next atomic step. */
  datatype Point =
    | Checking(call: Call) // about to verify the authorization before `call`
    | Calling(call: Call)
    | Awaiting // the agent works
    | Waiting(wait: Wait)
    | Looking // cancelled; about to read the latch
    | Over(status: RunStatus)

  datatype Drive = Drive(log: Log, point: Point)

  /** What does not change during a run: whether it can be revoked at all, and whether
    * its caller passed continuations. */
  datatype Setup = Setup(revocable: bool, continuable: bool)

  const Begun := Drive(Begin, Checking(Start))

  predicate Fits(d: Drive, tick: Tick) {
    match d.point
    case Checking(_) => tick.reply.Check?
    case Calling(_) => tick.reply.Look?
    case Awaiting => tick.reply.Answer? || tick.reply.Broken?
    // The cancellation branch is ready only once the token has fired.
    case Waiting(_) =>
      tick.reply.Closed? || tick.reply.Got? || (tick.reply.CancelWon? && Cancelled(Observed(d.log, tick.others)))
    case Looking => tick.reply.Look?
    case Over(_) => false
  }

  function Return(log: Log, status: RunStatus): Drive {
    Drive(Then(log, Returned(status)), Over(status))
  }

  /** Continues from an outcome of the agent loop. */
  function Settled(setup: Setup, log: Log, outcome: Outcome): Drive {
    match outcome
    case Finished(events) => Return(log, StatusFrom(events))
    case NeedsApproval => Drive(log, Waiting(ForDecision))
    case OutOfTime =>
      if setup.continuable then Drive(log, Waiting(ForContinuation))
      else Return(Then(log, Sent(RunCompleted(WallClockExceeded))), Completed)
  }

  /** What a check decides: a latched denial stays, an unconditional run is never asked. */
  function Decided(setup: Setup, log: Log, answer: Option<Denial>): Option<Denial> {
    if Latched(log).Some? then Latched(log) else if setup.revocable then answer else None
  }

  function Step(setup: Setup, d: Drive, tick: Tick): Drive {
    if !Fits(d, tick) then d else
    var log := Observed(d.log, tick.others);
    match d.point
    case Checking(call) =>
      var denial := Decided(setup, log, tick.reply.denial);
      var checked := Then(log, Verified(denial));
      if denial.Some? then Drive(Withdrawn(checked, denial.value), Over(WasCancelled))
      else Drive(checked, Calling(call))
    case Calling(call) => Drive(Then(log, Called(call)), Awaiting)
    case Awaiting =>
      if tick.reply.Answer? then Settled(setup, Then(log, Replied(tick.reply.outcome)), tick.reply.outcome)
      else Return(Then(Then(log, Sent(Failure(tick.reply.message))), Sent(RunCompleted(StopReason.Error))), Failed)
    case Waiting(wait) =>
      var woken := Then(log, Woke(wait, tick.reply));
      if tick.reply.Closed? then Return(woken, WasCancelled)
      else if tick.reply.CancelWon? then Drive(woken, Looking)
      else Drive(woken, Checking(if wait.ForDecision? then Resume(tick.reply.item) else Continue(tick.reply.item)))
    case Looking =>
      if Latched(log).Some? then Drive(Withdrawn(log, Latched(log).value), Over(WasCancelled))
      else if LastOwn(log) == Some(Woke(ForContinuation, CancelWon))
      then Return(Then(log, Sent(RunCompleted(StopReason.Cancelled))), WasCancelled)
      else Return(log, WasCancelled)
    case Over(_) => d
  }

  function Run(setup: Setup, d: Drive, tape: seq<Tick>): Drive
    decreases |tape|
  {
    if tape == [] then d else Run(setup, Step(setup, d, tape[0]), tape[1..])
  }

  // ---------------------------------------------------------------- the invariant

  /** How a revoked run ends: the denial's message, the terminal event, `Cancelled`. */
  predicate EndsWithdrawn(log: Log) {
    && Latched(log).Some?
    && log.Then? && log.before.Then? && log.before.before.Then?
    && log == Withdrawn(log.before.before.before, Latched(log).value)
  }

  ghost predicate Inv(d: Drive) {
    && Disciplined(d.log)
    && (WokeRevoked(d.log) ==> Latched(d.log).Some?)
    && match d.point
       case Checking(_) => true
       case Calling(_) => Passed(d.log) && !WokeRevoked(d.log)
       case Awaiting => !WokeRevoked(d.log)
       case Waiting(_) => !WokeRevoked(d.log)
       case Looking =>
         LastOwn(d.log) == Some(Woke(ForDecision, CancelWon)) || LastOwn(d.log) == Some(Woke(ForContinuation, CancelWon))
       case Over(status) =>
         && d.log.Then? && d.log.action == Returned(status)
         && (WokeRevoked(d.log) ==> EndsWithdrawn(d.log))
  }

  /** Sending and returning touch neither the discipline nor the latch. */
  lemma SayingKeeps(log: Log, action: Action)
    requires action.Sent? || action.Returned? || action.Replied?
    ensures Disciplined(Then(log, action)) <==> Disciplined(log)
    ensures WokeRevoked(Then(log, action)) <==> WokeRevoked(log)
    ensures Latched(Then(log, action)) == Latched(log)
  {
  }

  lemma WithdrawnKeeps(log: Log, denial: Denial)
    ensures Disciplined(Withdrawn(log, denial)) <==> Disciplined(log)
    ensures Latched(Withdrawn(log, denial)) == Latched(log)
    ensures LastWord(Withdrawn(log, denial)) == Some(StopReason.Cancelled)
  {
    var why := Then(log, Sent(Failure(RevokedMessage(denial))));
    SayingKeeps(why, Sent(RunCompleted(StopReason.Cancelled)));
    SayingKeeps(Then(why, Sent(RunCompleted(StopReason.Cancelled))), Returned(WasCancelled));
  }

  lemma InvStep(setup: Setup, d: Drive, tick: Tick)
    requires Inv(d)
    ensures Inv(Step(setup, d, tick))
  {
    if Fits(d, tick) {
      ObservedKeeps(d.log, tick.others);
      var log := Observed(d.log, tick.others);
      match d.point {
        case Checking(_) =>
          var denial := Decided(setup, log, tick.reply.denial);
          if denial.Some? {
            WithdrawnKeeps(Then(log, Verified(denial)), denial.value);
          }
        case Awaiting =>
          if tick.reply.Answer? {
            SayingKeeps(log, Replied(tick.reply.outcome));
            SayingKeeps(Then(log, Replied(tick.reply.outcome)), Sent(RunCompleted(WallClockExceeded)));
          } else {
            SayingKeeps(log, Sent(Failure(tick.reply.message)));
            SayingKeeps(Then(log, Sent(Failure(tick.reply.message))), Sent(RunCompleted(StopReason.Error)));
          }
        case Looking =>
          if Latched(log).Some? {
            WithdrawnKeeps(log, Latched(log).value);
          } else {
            SayingKeeps(log, Sent(RunCompleted(StopReason.Cancelled)));
          }
        case Waiting(wait) =>
          SayingKeeps(Then(log, Woke(wait, tick.reply)), Returned(WasCancelled));
          assert wait == ForDecision || wait == ForContinuation;
        case Calling(_) =>
      }
    }
  }

  lemma {:induction false} InvRun(setup: Setup, d: Drive, tape: seq<Tick>)
    requires Inv(d)
    ensures Inv(Run(setup, d, tape))
    decreases |tape|
  {
    if tape != [] {
      InvStep(setup, d, tape[0]);
      InvRun(setup, Step(setup, d, tape[0]), tape[1..]);
    }
  }

  /** Every call to the agent is preceded by a check that passed, with no wait and no
    * other call in between. */
  lemma EveryCallIsChecked(setup: Setup, tape: seq<Tick>)
    ensures Disciplined(Run(setup, Begun, tape).log)
  {
    InvRun(setup, Begun, tape);
  }

  /** A wait that ends with the run already revoked, whichever of cancellation and answer
    * wins, ends the run: `Error`, `RunCompleted{Cancelled}` and `Cancelled` are the last
    * things it does. A closed channel is the one other way out of a wait. */
  lemma RevokedWaitsEndTheRun(setup: Setup, tape: seq<Tick>)
    ensures var d := Run(setup, Begun, tape);
            WokeRevoked(d.log) ==> if d.point.Over? then EndsWithdrawn(d.log) else d.point.Checking? || d.point.Looking?
  {
    InvRun(setup, Begun, tape);
  }

  /** A wait ended with a denial already latched, however it ended. */
  predicate RevokedWait(log: Log) {
    log.Then? && (RevokedWait(log.before) || (log.action.Woke? && Latched(log.before).Some?))
  }

  /** A wait ended by its channel closing. */
  predicate Closes(log: Log) {
    log.Then? && (Closes(log.before) || (log.action.Woke? && log.action.winner.Closed?))
  }

  predicate LastClosed(log: Log) {
    LastOwn(log).Some? && LastOwn(log).value.Woke? && LastOwn(log).value.winner.Closed?
  }

  ghost predicate ClosingEnds(d: Drive) {
    && (Closes(d.log) ==> d.point.Over? && LastClosed(d.log))
    && (RevokedWait(d.log) ==> WokeRevoked(d.log) || Closes(d.log))
  }

  lemma {:induction false} ObservingWaitsNot(log: Log, others: seq<Other>)
    ensures Closes(Observed(log, others)) <==> Closes(log)
    ensures RevokedWait(Observed(log, others)) <==> RevokedWait(log)
    decreases |others|
  {
    if others != [] {
      ObservingWaitsNot(Then(log, Happened(others[0])), others[1..]);
    }
  }

  lemma SayingWaitsNot(log: Log, action: Action)
    requires !action.Woke?
    ensures Closes(Then(log, action)) <==> Closes(log)
    ensures RevokedWait(Then(log, action)) <==> RevokedWait(log)
    ensures WokeRevoked(Then(log, action)) <==> WokeRevoked(log)
  {
  }

  lemma WithdrawnWaitsNot(log: Log, denial: Denial)
    ensures Closes(Withdrawn(log, denial)) <==> Closes(log)
    ensures RevokedWait(Withdrawn(log, denial)) <==> RevokedWait(log)
    ensures WokeRevoked(Withdrawn(log, denial)) <==> WokeRevoked(log)
  {
    var why := Then(log, Sent(Failure(RevokedMessage(denial))));
    SayingWaitsNot(log, Sent(Failure(RevokedMessage(denial))));
    SayingWaitsNot(why, Sent(RunCompleted(StopReason.Cancelled)));
    SayingWaitsNot(Then(why, Sent(RunCompleted(StopReason.Cancelled))), Returned(WasCancelled));
  }

  lemma ClosingStep(setup: Setup, d: Drive, tick: Tick)
    requires ClosingEnds(d)
    ensures ClosingEnds(Step(setup, d, tick))
  {
    if Fits(d, tick) {
      ObservedKeeps(d.log, tick.others);
      ObservingWaitsNot(d.log, tick.others);
      var log := Observed(d.log, tick.others);
      match d.point {
        case Checking(_) =>
          var denial := Decided(setup, log, tick.reply.denial);
          SayingWaitsNot(log, Verified(denial));
          if denial.Some? {
            WithdrawnWaitsNot(Then(log, Verified(denial)), denial.value);
          }
        case Awaiting =>
          if tick.reply.Answer? {
            var replied := Then(log, Replied(tick.reply.outcome));
            SayingWaitsNot(log, Replied(tick.reply.outcome));
            SayingWaitsNot(replied, Sent(RunCompleted(WallClockExceeded)));
          } else {
            SayingWaitsNot(log, Sent(Failure(tick.reply.message)));
            SayingWaitsNot(Then(log, Sent(Failure(tick.reply.message))), Sent(RunCompleted(StopReason.Error)));
          }
        case Looking =>
          if Latched(log).Some? {
            WithdrawnWaitsNot(log, Latched(log).value);
          } else {
            SayingWaitsNot(log, Sent(RunCompleted(StopReason.Cancelled)));
          }
        case Waiting(wait) =>
          var woken := Then(log, Woke(wait, tick.reply));
          assert tick.reply.Closed? ==> LastOwn(Then(woken, Returned(WasCancelled))) == LastOwn(woken);
          SayingWaitsNot(woken, Returned(WasCancelled));
        case Calling(call) => SayingWaitsNot(log, Called(call));
      }
    }
  }

  lemma {:induction false} ClosingRun(setup: Setup, d: Drive, tape: seq<Tick>)
    requires ClosingEnds(d)
    ensures ClosingEnds(Run(setup, d, tape))
    decreases |tape|
  {
    if tape != [] {
      ClosingStep(setup, d, tape[0]);
      ClosingRun(setup, Step(setup, d, tape[0]), tape[1..]);
    }
  }

  lemma {:induction false} RevocationLatches(log: Log, others: seq<Other>)
    requires Latched(log).Some? || exists o | o in others :: o.Revoke?
    ensures Latched(Observed(log, others)).Some?
    decreases |others|
  {
    if others != [] {
      var next := Then(log, Happened(others[0]));
      if !others[0].Revoke? && Latched(log).None? {
        var o :| o in others && o.Revoke?;
        assert o in others[1..];
      }
      RevocationLatches(next, others[1..]);
    }
  }

  /** Wherever the driver is about to check, a withdrawal that has landed by then ends the
    * run: no call follows. */
  lemma NextCheckEnds(setup: Setup, d: Drive, tick: Tick)
    requires d.point.Checking? && Fits(d, tick)
    requires Latched(d.log).Some? || exists o | o in tick.others :: o.Revoke?
    ensures var e := Step(setup, d, tick); e.point == Over(WasCancelled) && EndsWithdrawn(e.log)
  {
    RevocationLatches(d.log, tick.others);
    var log := Observed(d.log, tick.others);
    var denial := Latched(log);
    WithdrawnKeeps(Then(log, Verified(denial)), denial.value);
  }

  /** A run in which some wait ended with its authorization already withdrawn ends with the
    * denial's message, the terminal event and `Cancelled` exactly when none of its waits
    * ended by the channel closing. */
  lemma RevokedWaitsEndExactly(setup: Setup, tape: seq<Tick>)
    ensures var d := Run(setup, Begun, tape);
            d.point.Over? && RevokedWait(d.log) ==> (EndsWithdrawn(d.log) <==> !Closes(d.log))
  {
    InvRun(setup, Begun, tape);
    ClosingRun(setup, Begun, tape);
    var d := Run(setup, Begun, tape);
    if d.point.Over? && Closes(d.log) {
      WokeSaysNothing(d.log);
      if EndsWithdrawn(d.log) {
        WithdrawnKeeps(d.log.before.before.before, Latched(d.log).value);
      }
    }
  }

  lemma {:induction false} WokeSaysNothing(log: Log)
    requires LastOwn(log).Some? && LastOwn(log).value.Woke?
    ensures LastWord(log).None?
  {
    if log.action.Happened? || log.action.Returned? {
      WokeSaysNothing(log.before);
    }
  }

  lemma AgreesLooking(setup: Setup, d: Drive, tick: Tick)
    requires Inv(d) && d.point.Looking? && Fits(d, tick)
    ensures var e := Step(setup, d, tick); e.point.Over? && Agrees(e.log, e.point.status)
  {
    ObservedKeeps(d.log, tick.others);
    var log := Observed(d.log, tick.others);
    WokeSaysNothing(log);
    if Latched(log).Some? {
      WithdrawnKeeps(log, Latched(log).value);
    } else if LastOwn(log) == Some(Woke(ForContinuation, CancelWon)) {
      var sent := Then(log, Sent(RunCompleted(StopReason.Cancelled)));
      assert LastWord(Then(sent, Returned(WasCancelled))) == LastWord(sent) == Some(StopReason.Cancelled);
    } else {
      var done := Then(log, Returned(WasCancelled));
      assert LastWord(done) == None && LastOwn(done) == LastOwn(log);
      SayingKeeps(log, Returned(WasCancelled));
    }
  }

  lemma AgreesStep(setup: Setup, d: Drive, tick: Tick)
    requires Inv(d) && AgentFinishes([tick])
    requires d.point.Over? ==> Agrees(d.log, d.point.status)
    ensures var e := Step(setup, d, tick); e.point.Over? ==> Agrees(e.log, e.point.status)
  {
    assert [tick][0] == tick;
    if Fits(d, tick) {
      ObservedKeeps(d.log, tick.others);
      var log := Observed(d.log, tick.others);
      match d.point {
        case Checking(_) =>
          var denial := Decided(setup, log, tick.reply.denial);
          if denial.Some? {
            WithdrawnKeeps(Then(log, Verified(denial)), denial.value);
          }
        case Awaiting =>
          if tick.reply.Broken? {
            var sent := Then(Then(log, Sent(Failure(tick.reply.message))), Sent(RunCompleted(StopReason.Error)));
            assert LastWord(Then(sent, Returned(Failed))) == LastWord(sent) == Some(StopReason.Error);
          } else if tick.reply.outcome.OutOfTime? {
            var sent := Then(Then(log, Replied(OutOfTime)), Sent(RunCompleted(WallClockExceeded)));
            assert LastWord(Then(sent, Returned(Completed))) == LastWord(sent) == Some(WallClockExceeded);
          } else if tick.reply.outcome.Finished? {
            var replied := Then(log, Replied(tick.reply.outcome));
            var status := StatusFrom(tick.reply.outcome.events);
            assert LastWord(Then(replied, Returned(status))) == LastWord(replied);
          }
        case Waiting(wait) =>
          if tick.reply.Closed? {
            var woken := Then(log, Woke(wait, Closed));
            assert LastWord(Then(woken, Returned(WasCancelled))) == LastWord(woken) == None;
            assert LastOwn(Then(woken, Returned(WasCancelled))) == LastOwn(woken) == Some(Woke(wait, Closed));
          }
        case Looking =>
          AgreesLooking(setup, d, tick);
        case Calling(_) =>
      }
    }
  }

  lemma {:induction false} AgreesRun(setup: Setup, d: Drive, tape: seq<Tick>)
    requires Inv(d) && AgentFinishes(tape)
    requires d.point.Over? ==> Agrees(d.log, d.point.status)
    ensures var e := Run(setup, d, tape); e.point.Over? ==> Agrees(e.log, e.point.status)
    decreases |tape|
  {
    if tape != [] {
      assert AgentFinishes([tape[0]]) && AgentFinishes(tape[1..]);
      InvStep(setup, d, tape[0]);
      AgreesStep(setup, d, tape[0]);
      AgreesRun(setup, Step(setup, d, tape[0]), tape[1..]);
    }
  }

  /** A run's last word is a wait: its channel closed, or it was cancelled, not revoked,
    * while it waited for a decision. */
  predicate EndsOnAWait(log: Log) {
    && LastOwn(log).Some? && LastOwn(log).value.Woke?
    && (LastOwn(log).value.winner.Closed? || (LastOwn(log).value == Woke(ForDecision, CancelWon) && Latched(log).None?))
  }

  /** The status a run returns is the one its event stream ends with: `Failed` exactly for
    * an error, `WasCancelled` exactly for a cancellation, `Completed` for every other
    * reason; the stream ends without a terminal event exactly when the run was cancelled by a closed channel, or
    * cancelled and not revoked while it waited for a decision. */
  lemma StatusAgreesWithStream(setup: Setup, tape: seq<Tick>)
    requires AgentFinishes(tape)
    ensures var d := Run(setup, Begun, tape);
            d.point.Over? ==> Agrees(d.log, d.point.status) && (LastWord(d.log).None? <==> EndsOnAWait(d.log))
  {
    AgreesRun(setup, Begun, tape);
    var d := Run(setup, Begun, tape);
    if EndsOnAWait(d.log) {
      WokeSaysNothing(d.log);
    }
  }

  // ---------------------------------------------------------------- what may follow what

  /** What the driver itself did. */
  function Own(log: Log): seq<Action> {
    match log
    case Begin => []
    case Then(before, action) => if action.Happened? then Own(before) else Own(before) + [action]
  }

  /** The call that an answered wait asks for; the first call starts the run. */
  predicate CallAfter(own: seq<Action>, call: Call) {
    if own == [] then call == Start
    else
      match call
      case Start => false
      case Resume(decision) => own[|own| - 1] == Woke(ForDecision, Got(decision))
      case Continue(how) => own[|own| - 1] == Woke(ForContinuation, Got(how))
  }

  /** Whether the driver may do `action` after what it did before. */
  predicate MayFollow(setup: Setup, own: seq<Action>, action: Action) {
    if own == [] then action.Verified?
    else
      var last := own[|own| - 1];
      match action
      case Verified(_) => last.Woke? && last.winner.Got?
      case Called(call) => last == Verified(None) && CallAfter(own[..|own| - 1], call)
      case Replied(_) => last.Called?
      case Woke(ForDecision, _) => last == Replied(NeedsApproval)
      case Woke(ForContinuation, _) => last == Replied(OutOfTime) && setup.continuable
      case Sent(Failure(_)) => last.Called? || (last.Verified? && last.denial.Some?) || (last.Woke? && last.winner.CancelWon?)
      case Sent(RunCompleted(reason)) =>
        if last.Sent? then last.event.Failure? && |own| > 1 && reason == (if own[|own| - 2].Called? then StopReason.Error else StopReason.Cancelled)
        else if last.Replied? then last == Replied(OutOfTime) && !setup.continuable && reason == WallClockExceeded
        else last == Woke(ForContinuation, CancelWon) && reason == StopReason.Cancelled
      case Returned(status) =>
        if last.Woke? then status.WasCancelled? && (last.winner.Closed? || last == Woke(ForDecision, CancelWon))
        else if last.Replied? then last.outcome.Finished?
        else last.Sent? && last.event.RunCompleted? && StandsFor(status, last.event.reason)
      case _ => false
  }

  /** All that happened, others' doings included. */
  function All(log: Log): seq<Action> {
    match log
    case Begin => []
    case Then(before, action) => All(before) + [action]
  }

  predicate Cancels(action: Action) {
    action == Happened(Cancel) || (action.Verified? && action.denial.Some?)
  }

  /** The first denial among these actions, a supervisor's or a failed check's. */
  predicate FirstDenial(actions: seq<Action>, i: nat, denial: Denial) {
    && i < |actions|
    && (actions[i] == Happened(Revoke(denial)) || actions[i] == Verified(Some(denial)))
    && forall j | 0 <= j < i :: !(actions[j].Happened? && actions[j].other.Revoke?) && !(actions[j].Verified? && actions[j].denial.Some?)
  }

  /** The latch holds the first denial there was, and the token has fired once something
    * cancelled the run. */
  lemma {:induction false} LatchAndToken(log: Log)
    ensures Latched(log).Some? ==> exists i :: FirstDenial(All(log), i, Latched(log).value)
    ensures Latched(log).None? ==> forall i, denial :: !FirstDenial(All(log), i, denial)
    ensures Cancelled(log) <==> exists i :: 0 <= i < |All(log)| && Cancels(All(log)[i])
  {
    if log.Then? {
      var all, n := All(log), |All(log.before)|;
      LatchAndToken(log.before);
      assert all[..n] == All(log.before) && all[n] == log.action;
      if Latched(log.before).Some? {
        var i :| FirstDenial(All(log.before), i, Latched(log.before).value);
        assert FirstDenial(all, i, Latched(log).value);
      } else {
        NoDenialBefore(All(log.before));
        if Latched(log).Some? {
          assert FirstDenial(all, n, Latched(log).value);
        }
      }
      if Cancelled(log.before) {
        var i :| 0 <= i < n && Cancels(All(log.before)[i]);
        assert Cancels(all[i]);
      } else if Cancels(log.action) {
        assert Cancels(all[n]);
      }
      if i :| 0 <= i < |all| && Cancels(all[i]) {
        assert i < n ==> Cancels(All(log.before)[i]);
      }
    }
  }

  lemma {:induction false} NoDenialBefore(actions: seq<Action>)
    requires forall i, denial :: !FirstDenial(actions, i, denial)
    ensures forall j | 0 <= j < |actions| :: !(actions[j].Happened? && actions[j].other.Revoke?) && !(actions[j].Verified? && actions[j].denial.Some?)
  {
    if actions != [] {
      var n := |actions| - 1;
      forall i, denial
        ensures !FirstDenial(actions[..n], i, denial)
      {
        if FirstDenial(actions[..n], i, denial) {
          assert FirstDenial(actions, i, denial);
        }
      }
      NoDenialBefore(actions[..n]);
      assert forall j | 0 <= j < n :: actions[j] == actions[..n][j];
      var last := actions[n];
      if last.Happened? && last.other.Revoke? {
        assert FirstDenial(actions, n, last.other.denial);
      } else if last.Verified? && last.denial.Some? {
        assert FirstDenial(actions, n, last.denial.value);
      }
    }
  }

  /** A check decides anew only while nothing is latched and the run can be revoked at all; a
    * wait is cut short only once the run is cancelled. */
  predicate Founded(setup: Setup, before: Log, action: Action) {
    && (action.Verified? && (Latched(before).Some? || !setup.revocable) ==> action.denial == Latched(before))
    && (action.Woke? && action.winner.CancelWon? ==> Cancelled(before))
  }

  predicate Orderly(setup: Setup, log: Log) {
    match log
    case Begin => true
    case Then(before, action) =>
      && Orderly(setup, before)
      && (!action.Happened? ==> MayFollow(setup, Own(before), action))
      && Founded(setup, before, action)
  }

  /** Where the driver stands, told by its last own actions. */
  predicate Located(setup: Setup, d: Drive) {
    var own := Own(d.log);
    if own == [] then d.point == Checking(Start)
    else
      var last := own[|own| - 1];
      match d.point
      case Checking(call) => last.Woke? && last.winner.Got? && CallAfter(own, call)
      case Calling(call) => last == Verified(None) && CallAfter(own[..|own| - 1], call)
      case Awaiting => last.Called?
      case Waiting(ForDecision) => last == Replied(NeedsApproval)
      case Waiting(ForContinuation) => last == Replied(OutOfTime) && setup.continuable
      case Looking => LastOwn(d.log) == Some(last) && last.Woke? && last.winner.CancelWon?
      case Over(_) => true
  }

  lemma {:induction false} ObservedOrderly(setup: Setup, log: Log, others: seq<Other>)
    ensures Own(Observed(log, others)) == Own(log)
    ensures Orderly(setup, Observed(log, others)) <==> Orderly(setup, log)
    decreases |others|
  {
    if others != [] {
      ObservedOrderly(setup, Then(log, Happened(others[0])), others[1..]);
    }
  }

  /** After these a revoked run ends. */
  predicate Denies(action: Action) {
    (action.Verified? && action.denial.Some?) || (action.Woke? && action.winner.CancelWon?)
  }

  lemma WithdrawnOrderly(setup: Setup, log: Log, denial: Denial)
    requires Orderly(setup, log) && Own(log) != []
    requires Denies(Own(log)[|Own(log)| - 1])
    ensures Orderly(setup, Withdrawn(log, denial))
  {
    var why := Then(log, Sent(Failure(RevokedMessage(denial))));
    var end := Then(why, Sent(RunCompleted(StopReason.Cancelled)));
    assert Orderly(setup, why) && Own(why) == Own(log) + [why.action];
    assert Orderly(setup, end) && Own(end) == Own(why) + [end.action];
  }

  lemma BrokenOrderly(setup: Setup, log: Log, message: string)
    requires Orderly(setup, log) && Own(log) != [] && Own(log)[|Own(log)| - 1].Called?
    ensures Orderly(setup, Return(Then(Then(log, Sent(Failure(message))), Sent(RunCompleted(StopReason.Error))), Failed).log)
  {
    var why := Then(log, Sent(Failure(message)));
    var end := Then(why, Sent(RunCompleted(StopReason.Error)));
    assert Orderly(setup, why) && Own(why) == Own(log) + [why.action];
    assert Orderly(setup, end) && Own(end) == Own(why) + [end.action];
  }

  lemma SettledOrderly(setup: Setup, log: Log, outcome: Outcome)
    requires Orderly(setup, log) && Own(log) != [] && Own(log)[|Own(log)| - 1] == Replied(outcome)
    ensures var e := Settled(setup, log, outcome); Orderly(setup, e.log) && Located(setup, e)
  {
    if outcome.OutOfTime? && !setup.continuable {
      var sent := Then(log, Sent(RunCompleted(WallClockExceeded)));
      assert Orderly(setup, sent) && Own(sent) == Own(log) + [sent.action];
    }
  }

  lemma LookingOrderly(setup: Setup, d: Drive, tick: Tick)
    requires Orderly(setup, d.log) && Located(setup, d) && Fits(d, tick) && d.point.Looking?
    ensures var e := Step(setup, d, tick); Orderly(setup, e.log) && Located(setup, e)
  {
    ObservedKeeps(d.log, tick.others);
    ObservedOrderly(setup, d.log, tick.others);
    var log := Observed(d.log, tick.others);
    if Latched(log).Some? {
      WithdrawnOrderly(setup, log, Latched(log).value);
    } else if LastOwn(log) == Some(Woke(ForContinuation, CancelWon)) {
      var sent := Then(log, Sent(RunCompleted(StopReason.Cancelled)));
      assert Orderly(setup, sent) && Own(sent) == Own(log) + [sent.action];
    } else {
      var last := LastOwn(log).value;
      assert last == Woke(last.wait, CancelWon) && last.wait == ForDecision;
    }
  }

  lemma OneMore(setup: Setup, log: Log, action: Action)
    requires Orderly(setup, log) && !action.Happened? && MayFollow(setup, Own(log), action) && Founded(setup, log, action)
    ensures Orderly(setup, Then(log, action)) && Own(Then(log, action)) == Own(log) + [action]
    ensures !action.Returned? ==> LastOwn(Then(log, action)) == Some(action)
  {
  }

  lemma PassedOrderly(setup: Setup, log: Log, call: Call)
    requires Orderly(setup, log) && Located(setup, Drive(log, Checking(call))) && Founded(setup, log, Verified(None))
    ensures var checked := Then(log, Verified(None)); Orderly(setup, checked) && Located(setup, Drive(checked, Calling(call)))
  {
    OneMore(setup, log, Verified(None));
    assert (Own(log) + [Verified(None)])[..|Own(log)|] == Own(log);
  }

  lemma DeniedOrderly(setup: Setup, log: Log, call: Call, denial: Denial)
    requires Orderly(setup, log) && Located(setup, Drive(log, Checking(call))) && Founded(setup, log, Verified(Some(denial)))
    ensures Orderly(setup, Withdrawn(Then(log, Verified(Some(denial))), denial))
  {
    OneMore(setup, log, Verified(Some(denial)));
    WithdrawnOrderly(setup, Then(log, Verified(Some(denial))), denial);
  }

  lemma CheckingOrderly(setup: Setup, log: Log, call: Call, answer: Option<Denial>)
    requires Orderly(setup, log) && Located(setup, Drive(log, Checking(call)))
    ensures var denial := Decided(setup, log, answer);
            var checked := Then(log, Verified(denial));
            if denial.Some? then Orderly(setup, Withdrawn(checked, denial.value))
            else Orderly(setup, checked) && Located(setup, Drive(checked, Calling(call)))
  {
    var denial := Decided(setup, log, answer);
    if denial.Some? {
      DeniedOrderly(setup, log, call, denial.value);
    } else {
      PassedOrderly(setup, log, call);
    }
  }

  lemma CallingOrderly(setup: Setup, log: Log, call: Call)
    requires Orderly(setup, log) && Located(setup, Drive(log, Calling(call)))
    ensures Orderly(setup, Then(log, Called(call))) && Located(setup, Drive(Then(log, Called(call)), Awaiting))
  {
    OneMore(setup, log, Called(call));
  }

  lemma AwaitingOrderly(setup: Setup, log: Log, outcome: Outcome)
    requires Orderly(setup, log) && Located(setup, Drive(log, Awaiting))
    ensures var e := Settled(setup, Then(log, Replied(outcome)), outcome); Orderly(setup, e.log) && Located(setup, e)
  {
    OneMore(setup, log, Replied(outcome));
    SettledOrderly(setup, Then(log, Replied(outcome)), outcome);
  }

  lemma WaitingOrderly(setup: Setup, log: Log, wait: Wait, winner: Reply)
    requires Orderly(setup, log) && Located(setup, Drive(log, Waiting(wait)))
    requires winner.Got? || winner.Closed? || (winner.CancelWon? && Cancelled(log))
    ensures var woken := Then(log, Woke(wait, winner));
            && Orderly(setup, woken)
            && (winner.Closed? ==> Orderly(setup, Return(woken, WasCancelled).log))
            && (winner.CancelWon? ==> Located(setup, Drive(woken, Looking)))
            && (winner.Got? ==> Located(setup, Drive(woken, Checking(if wait.ForDecision? then Resume(winner.item) else Continue(winner.item)))))
  {
    OneMore(setup, log, Woke(wait, winner));
  }

  lemma ObservedLocated(setup: Setup, d: Drive, others: seq<Other>)
    requires Located(setup, d)
    ensures Located(setup, Drive(Observed(d.log, others), d.point))
  {
    ObservedOrderly(setup, d.log, others);
    ObservedKeeps(d.log, others);
  }

  lemma OrderlyStep(setup: Setup, d: Drive, tick: Tick)
    requires Orderly(setup, d.log) && Located(setup, d) && Fits(d, tick)
    ensures var e := Step(setup, d, tick); Orderly(setup, e.log) && Located(setup, e)
  {
    ObservedOrderly(setup, d.log, tick.others);
    ObservedLocated(setup, d, tick.others);
    var log := Observed(d.log, tick.others);
    match d.point {
      case Checking(call) => CheckingOrderly(setup, log, call, tick.reply.denial);
      case Calling(call) => CallingOrderly(setup, log, call);
      case Awaiting =>
        if tick.reply.Answer? {
          AwaitingOrderly(setup, log, tick.reply.outcome);
        } else {
          BrokenOrderly(setup, log, tick.reply.message);
        }
      case Waiting(wait) => WaitingOrderly(setup, log, wait, tick.reply);
      case Looking => LookingOrderly(setup, d, tick);
    }
  }

  lemma {:induction false} OrderlyRun(setup: Setup, d: Drive, tape: seq<Tick>)
    requires Orderly(setup, d.log) && Located(setup, d)
    ensures var e := Run(setup, d, tape); Orderly(setup, e.log) && Located(setup, e)
    decreases |tape|
  {
    if tape != [] {
      if Fits(d, tape[0]) {
        OrderlyStep(setup, d, tape[0]);
      }
      OrderlyRun(setup, Step(setup, d, tape[0]), tape[1..]);
    }
  }

  /** Over every run the driver does one thing after another as it should: it starts once,
    * waits for a decision or for time exactly when the agent asked for it, resumes or
    * continues with the very answer the wait got, and ends its stream with the reason that
    * belongs to the way it ended. */
  lemma EveryActionFollows(setup: Setup, tape: seq<Tick>)
    ensures Orderly(setup, Run(setup, Begun, tape).log)
  {
    OrderlyRun(setup, Begun, tape);
  }

  // ---------------------------------------------------------------- the driver, as its loop

  lemma {:induction false} RunExtends(setup: Setup, d: Drive, tape: seq<Tick>, tick: Tick)
    ensures Run(setup, d, tape + [tick]) == Step(setup, Run(setup, d, tape), tick)
    decreases |tape|
  {
    if tape == [] {
      assert ([] + [tick])[1..] == [];
    } else {
      assert (tape + [tick])[1..] == tape[1..] + [tick];
      RunExtends(setup, Step(setup, d, tape[0]), tape[1..], tick);
    }
  }

  /** One tick of the tape was read for the step the driver is at. */
  predicate Follows(setup: Setup, tape: seq<Tick>, used: nat, d: Drive) {
    used <= |tape| && Run(setup, Begun, tape[..used]) == d
  }

  lemma Advance(setup: Setup, tape: seq<Tick>, used: nat, d: Drive)
    requires used < |tape| && Follows(setup, tape, used, d)
    ensures Follows(setup, tape, used + 1, Step(setup, d, tape[used]))
  {
    assert tape[..used + 1] == tape[..used] + [tape[used]];
    RunExtends(setup, Begun, tape[..used], tape[used]);
  }

  /** Checks the authorization and, if it holds, calls the agent: `Ok` is an outcome to go
    * on from, anything else is where the run stands. */
  method CheckAndCall(setup: Setup, tape: seq<Tick>, from: nat, before: Log, call: Call)
    returns (used: nat, log: Log, outcome: Option<Outcome>, result: Option<RunStatus>)
    requires Follows(setup, tape, from, Drive(before, Checking(call)))
    ensures from <= used <= |tape|
    ensures outcome.Some? ==> result.None? && used > from && log.Then? && log.action == Replied(outcome.value)
                              && Follows(setup, tape, used, Settled(setup, log, outcome.value))
    ensures result.Some? ==> Follows(setup, tape, used, Drive(log, Over(result.value)))
    ensures outcome.None? && result.None? ==> Stopped(setup, tape, used, log)
  {
    used, log, outcome, result := from, before, None, None;
    if used == |tape| || !tape[used].reply.Check? {
      return;
    }
    Advance(setup, tape, used, Drive(log, Checking(call)));
    log := Observed(log, tape[used].others);
    var denial := Decided(setup, log, tape[used].reply.denial);
    log := Then(log, Verified(denial));
    used := used + 1;
    if denial.Some? {
      log, result := Withdrawn(log, denial.value), Some(WasCancelled);
      return;
    }
    if used == |tape| || !tape[used].reply.Look? {
      return;
    }
    Advance(setup, tape, used, Drive(log, Calling(call)));
    log := Then(Observed(log, tape[used].others), Called(call));
    used := used + 1;
    if used == |tape| {
      return;
    }
    Advance(setup, tape, used, Drive(log, Awaiting));
    match tape[used].reply {
      case Answer(found) =>
        log, outcome := Then(Observed(log, tape[used].others), Replied(found)), Some(found);
      case Broken(message) =>
        log := Then(Then(Observed(log, tape[used].others), Sent(Failure(message))), Sent(RunCompleted(StopReason.Error)));
        log, result := Then(log, Returned(Failed)), Some(Failed);
      case _ =>
        return;
    }
    used := used + 1;
  }

  /** The driver stopped early only because the tape ended or did not fit its next step. */
  predicate Stopped(setup: Setup, tape: seq<Tick>, used: nat, log: Log) {
    && used <= |tape|
    && var d := Run(setup, Begun, tape[..used]);
       d.log == log && !d.point.Over? && (used == |tape| || !Fits(d, tape[used]))
  }

  /** The loop of `drive_controlled`. It takes exactly the steps of `Run`, and stops short
    * of a status only when the tape gives out. */
  method DriveControlled(setup: Setup, tape: seq<Tick>) returns (used: nat, log: Log, result: Option<RunStatus>)
    ensures used <= |tape|
    ensures result.Some? ==> Run(setup, Begun, tape[..used]) == Drive(log, Over(result.value))
    ensures result.None? ==> Stopped(setup, tape, used, log)
    ensures Disciplined(log) && Orderly(setup, log)
    ensures result.Some? && AgentFinishes(tape) ==> Agrees(log, result.value)
  {
    var outcome: Option<Outcome>;
    used, log, outcome, result := CheckAndCall(setup, tape, 0, Begin, Start);
    while outcome.Some?
      invariant used <= |tape|
      invariant outcome.Some? ==> result.None? && Follows(setup, tape, used, Settled(setup, log, outcome.value))
      invariant result.Some? ==> Follows(setup, tape, used, Drive(log, Over(result.value)))
      invariant outcome.None? && result.None? ==> Stopped(setup, tape, used, log)
      decreases |tape| - used, outcome.Some?
    {
      match outcome.value {
        case Finished(events) =>
          var status := StatusFrom(events);
          log, outcome, result := Then(log, Returned(status)), None, Some(status);
        case OutOfTime =>
          if !setup.continuable {
            log := Then(log, Sent(RunCompleted(WallClockExceeded)));
            log, outcome, result := Then(log, Returned(Completed)), None, Some(Completed);
          } else {
            used, log, outcome, result := AwaitThenCall(setup, tape, used, log, ForContinuation);
          }
        case NeedsApproval =>
          used, log, outcome, result := AwaitThenCall(setup, tape, used, log, ForDecision);
      }
    }
    EveryCallIsChecked(setup, tape[..used]);
    EveryActionFollows(setup, tape[..used]);
    if AgentFinishes(tape) {
      StatusAgreesWithStream(setup, tape[..used]);
    }
  }

  /** One pause: waits for whichever comes first, and acts on it. */
  method AwaitThenCall(setup: Setup, tape: seq<Tick>, from: nat, before: Log, wait: Wait)
    returns (used: nat, log: Log, outcome: Option<Outcome>, result: Option<RunStatus>)
    requires Follows(setup, tape, from, Drive(before, Waiting(wait)))
    ensures from <= used <= |tape|
    ensures outcome.Some? ==> result.None? && used > from && Follows(setup, tape, used, Settled(setup, log, outcome.value))
    ensures result.Some? ==> Follows(setup, tape, used, Drive(log, Over(result.value)))
    ensures outcome.None? && result.None? ==> Stopped(setup, tape, used, log)
  {
    used, log, outcome, result := from, before, None, None;
    if used == |tape| || !Fits(Drive(log, Waiting(wait)), tape[used]) {
      return;
    }
    Advance(setup, tape, used, Drive(log, Waiting(wait)));
    var winner := tape[used].reply;
    log := Then(Observed(log, tape[used].others), Woke(wait, winner));
    used := used + 1;
    match winner {
      case Closed =>
        log, result := Then(log, Returned(WasCancelled)), Some(WasCancelled);
      case CancelWon =>
        if used == |tape| || !tape[used].reply.Look? {
          return;
        }
        Advance(setup, tape, used, Drive(log, Looking));
        ObservedKeeps(log, tape[used].others);
        log := Observed(log, tape[used].others);
        used := used + 1;
        var denial := Latched(log);
        if denial.Some? {
          log, result := Withdrawn(log, denial.value), Some(WasCancelled);
        } else {
          if wait.ForContinuation? {
            log := Then(log, Sent(RunCompleted(StopReason.Cancelled)));
          }
          log, result := Then(log, Returned(WasCancelled)), Some(WasCancelled);
        }
      case Got(item) =>
        var call := if wait.ForDecision? then Resume(item) else Continue(item);
        used, log, outcome, result := CheckAndCall(setup, tape, used, log, call);
    }
  }

  // ---------------------------------------------------------------- what the discipline means

  /** How many calls to the agent were made with a denial already latched. */
  function LateCalls(log: Log): nat {
    match log
    case Begin => 0
    case Then(before, action) =>
      LateCalls(before) + (if action.Called? && Latched(before).Some? then 1 else 0)
  }

  /** Others latched a denial after the driver's own last action. */
  predicate RevokedSince(log: Log) {
    match log
    case Begin => false
    case Then(before, action) =>
      action.Happened? && (RevokedSince(before) || (action.other.Revoke? && Latched(before).None?))
  }

  lemma {:induction false} LatchStays(log: Log)
    ensures Latched(log).None? ==> LateCalls(log) == 0
  {
    if log.Then? {
      LatchStays(log.before);
    }
  }

  /** After a passed check a denial is latched exactly when others latched it since. */
  lemma {:induction false} PassedMeansClear(log: Log)
    requires Disciplined(log) && Passed(log)
    ensures Latched(log).Some? <==> RevokedSince(log)
    ensures LateCalls(log) == 0
  {
    if log.action.Happened? {
      PassedMeansClear(log.before);
    } else {
      LatchStays(log.before);
    }
  }

  /** A withdrawn authorization stops the run: at most one call is ever made with the
    * denial latched, whatever the waits and their winners. */
  lemma {:induction false} AtMostOneLateCall(log: Log)
    requires Disciplined(log)
    ensures LateCalls(log) <= 1
  {
    if log.Then? {
      AtMostOneLateCall(log.before);
      if log.action.Called? {
        PassedMeansClear(log.before);
      }
    }
  }

  /** A call is late exactly when the withdrawal fell between the check the driver passed
    * for it and the call itself. */
  lemma LateExactlyInTheGap(before: Log, call: Call)
    requires Disciplined(Then(before, Called(call)))
    ensures Latched(before).Some? <==> RevokedSince(before)
  {
    PassedMeansClear(before);
  }

  /** The gap is always open: whichever call the driver is about to make after a passed
    * check, a withdrawal that lands first does not stop it. */
  lemma RevokedInTheGap(setup: Setup, tape: seq<Tick>, denial: Denial)
    ensures var d := Run(setup, Begun, tape);
            d.point.Calling? && Latched(d.log).None? ==>
              var e := Run(setup, Begun, tape + [Tick([Revoke(denial)], Look)]);
              e.point == Awaiting && e.log.Then? && e.log.action == Called(d.point.call) && LateCalls(e.log) == 1
  {
    var d, tick := Run(setup, Begun, tape), Tick([Revoke(denial)], Look);
    RunExtends(setup, Begun, tape, tick);
    if d.point.Calling? && Latched(d.log).None? {
      assert [Revoke(denial)][1..] == [];
      var revoked := Then(d.log, Happened(Revoke(denial)));
      assert Observed(revoked, []) == revoked && Observed(d.log, tick.others) == revoked;
      LatchStays(d.log);
      assert Latched(revoked) == Some(denial) && LateCalls(revoked) == 0;
    }
  }

  const ASKED := [Tick([], Check(None)), Tick([], Look), Tick([], Answer(NeedsApproval))]

  /** A run that waits for a decision, nothing latched. */
  lemma WaitsForDecision(setup: Setup)
    ensures var log := Then(Then(Then(Begin, Verified(None)), Called(Start)), Replied(NeedsApproval));
            Run(setup, Begun, ASKED) == Drive(log, Waiting(ForDecision)) && Latched(log).None?
  {
    var t0, t1, t2 := ASKED[0], ASKED[1], ASKED[2];
    assert [] + [t0] == [t0] && [t0] + [t1] == [t0, t1] && [t0, t1] + [t2] == ASKED;
    RunExtends(setup, Begun, [], t0);
    RunExtends(setup, Begun, [t0], t1);
    RunExtends(setup, Begun, [t0, t1], t2);
    var d1 := Step(setup, Begun, t0);
    var d2 := Step(setup, d1, t1);
    assert d1 == Drive(Then(Begin, Verified(None)), Calling(Start)) && d2 == Drive(Then(d1.log, Called(Start)), Awaiting);
    assert Latched(d1.log).None? && Latched(d2.log).None?;
    SayingKeeps(d2.log, Replied(NeedsApproval));
  }

  /** So a resume can follow the withdrawal: on this tape the approval is granted, the check
    * passes, and a supervisor revokes the run before the suspended call is resumed. */
  lemma ResumedInTheGap(denial: Denial)
    ensures var tape := ASKED + [Tick([], Got("grant"))] + [Tick([], Check(None))];
            var d := Run(Setup(true, true), Begun, tape + [Tick([Revoke(denial)], Look)]);
            d.point == Awaiting && d.log.Then? && d.log.action == Called(Resume("grant")) && LateCalls(d.log) == 1
  {
    var setup, got, check := Setup(true, true), Tick([], Got("grant")), Tick([], Check(None));
    WaitsForDecision(setup);
    RunExtends(setup, Begun, ASKED, got);
    RunExtends(setup, Begun, ASKED + [got], check);
    var d3 := Run(setup, Begun, ASKED);
    var d4 := Step(setup, d3, got);
    assert d4 == Drive(Then(d3.log, Woke(ForDecision, Got("grant"))), Checking(Resume("grant"))) && Latched(d4.log).None?;
    var d5 := Step(setup, d4, check);
    assert d5 == Drive(Then(d4.log, Verified(None)), Calling(Resume("grant"))) && Latched(d5.log).None?;
    RevokedInTheGap(setup, ASKED + [got] + [check], denial);
  }

  /** A channel that closes while a revoked run waits ends it without a word: the status
    * is `Cancelled`, but neither event is sent. */
  lemma ClosedChannelEndsBare(denial: Denial)
    ensures var d := Run(Setup(true, true), Begun, ASKED + [Tick([Revoke(denial)], Closed)]);
            d.point == Over(WasCancelled) && Latched(d.log) == Some(denial) && LastWord(d.log).None?
  {
    var setup, closing := Setup(true, true), Tick([Revoke(denial)], Closed);
    WaitsForDecision(setup);
    RunExtends(setup, Begun, ASKED, closing);
    var d3 := Run(setup, Begun, ASKED);
    var woken := Then(Then(d3.log, Happened(Revoke(denial))), Woke(ForDecision, Closed));
    assert closing.others[1..] == [] && Observed(woken.before, []) == woken.before;
    assert Observed(d3.log, closing.others) == woken.before;
    assert Step(setup, d3, closing) == Return(woken, WasCancelled);
    assert Latched(woken.before) == Some(denial) && Latched(woken) == Some(denial);
    assert LastWord(woken) == None;
  }
}
