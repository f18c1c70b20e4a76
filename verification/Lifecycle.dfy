/** One run from launch to its terminal status: the driver that emits events into a
  * channel, the forwarder that moves them onto the run's buffer and derives the status,
  * the finisher that waits for the forwarder, and clients that continue a paused run.
  *
  * Each `Step` is one atomic section of one task. A step that is not enabled changes
  * nothing, so `Run` over an arbitrary list of steps covers every interleaving.
  */
module Lifecycle {
  import opened Wrappers
  import opened Runs

  datatype Forwarder = Idle | Clearing(event: Event) | Marking(event: Event) | Pushing(event: Event) | Exited

  datatype Driver = Driving | Paused | Ended(result: RunStatus)

  datatype Finisher = Waiting | Cleared | Done

  /** `emitted`, `pauses`, `marked`, `issuedAt`, `takenAt`, `issued` and `taken` are history:
    * every event sent, the pauses emitted and marked so far, for each continuation issued
    * or taken the number of the pause marked or emitted last at that moment, and what it
    * asked for. */
  datatype Life = Life(
    shared: Shared,
    pausing: bool, // whether the run was started to pause on its time budget
    sink: seq<Event>,
    forwarder: Forwarder,
    driver: Driver,
    finisher: Finisher,
    emitted: seq<Event>,
    pauses: nat,
    marked: nat,
    issuedAt: seq<nat>,
    takenAt: seq<nat>,
    issued: seq<Continuation>,
    taken: seq<Continuation>)

  /** `Emit` and `Pause` are the agent at work, `Take` a paused driver receiving a
    * continuation, `End` the driver returning after sending the events `last`. A client
    * looks at the authorization before its `Continue`, which may have been withdrawn since. */
  datatype Step =
    | Emit(event: Event) | Pause | Take | End(result: RunStatus, last: seq<Event>)
    | Receive | Forward | Exit
    | ClearPending | SetFinal
    | Continue(client: nat, how: Continuation)

  function Launched(pausing: bool): Life {
    Life(Shared([], Running, None, [], true), pausing, [], Idle, Driving, Waiting, [], 0, 0, [], [], [], [])
  }

  predicate Pausing(events: seq<Event>) {
    WallClockPaused in events
  }

  predicate Enabled(l: Life, step: Step) {
    match step
    case Emit(event) => l.driver.Driving? && event != WallClockPaused
    // Only a run that may pause does.
    case Pause => l.driver.Driving? && l.pausing
    case Take => l.driver.Paused? && l.shared.continues != []
    // A factory returns a terminal status, and no pause is its last word.
    case End(result, last) => !l.driver.Ended? && Terminal(result) && !Pausing(last)
    case Receive => l.forwarder.Idle? && l.sink != []
    case Forward => l.forwarder.Clearing? || l.forwarder.Marking? || l.forwarder.Pushing?
    // The channel is closed once the driver returned and dropped its senders.
    case Exit => l.forwarder.Idle? && l.sink == [] && l.driver.Ended?
    case ClearPending => l.finisher.Waiting? && l.forwarder.Exited? && l.driver.Ended?
    case SetFinal => l.finisher.Cleared? && l.driver.Ended?
    case Continue(_, _) => Continuable(l.shared)
  }

  /** Where the forwarder starts with an event it received. */
  function Received(event: Event): Forwarder {
    match event
    case AwaitingApproval(_) => Clearing(event)
    case ToolCallStarted(_) => Clearing(event)
    case Content(_) => Clearing(event)
    case WallClockPaused => Marking(event)
    case _ => Pushing(event)
  }

  function Mark(event: Event): RunStatus {
    match event
    case AwaitingApproval(_) => AwaitingDecision
    case WallClockPaused => AwaitingContinue
    case _ => Running
  }

  function Forwarded(l: Life): Life {
    match l.forwarder
    case Clearing(event) =>
      var pending := if event.AwaitingApproval? then Some(event.approval) else None;
      l.(shared := l.shared.(pending := pending), forwarder := Marking(event))
    case Marking(event) =>
      l.(shared := l.shared.(status := Mark(event)),
         forwarder := Pushing(event),
         marked := if event.WallClockPaused? then l.marked + 1 else l.marked)
    case Pushing(event) =>
      l.(shared := Pushed(l.shared, event), forwarder := Idle)
    case _ => l
  }

  function Sent(l: Life, events: seq<Event>): Life {
    l.(sink := l.sink + events, emitted := l.emitted + events)
  }

  function Apply(l: Life, step: Step): Life {
    if !Enabled(l, step) then l else
    match step
    case Emit(event) => Sent(l, [event])
    case Pause => Sent(l, [WallClockPaused]).(driver := Paused, pauses := l.pauses + 1)
    case Take =>
      l.(shared := l.shared.(continues := l.shared.continues[1..]),
         driver := Driving,
         takenAt := l.takenAt + [l.pauses],
         taken := l.taken + [l.shared.continues[0]])
    case End(result, last) =>
      var shared := l.shared.(receiving := false);
      Sent(l, last).(shared := shared, driver := Ended(result))
    case Receive => l.(sink := l.sink[1..], forwarder := Received(l.sink[0]))
    case Forward => Forwarded(l)
    case Exit => l.(forwarder := Exited)
    case ClearPending => l.(shared := l.shared.(pending := None), finisher := Cleared)
    case SetFinal => l.(shared := l.shared.(status := l.driver.result), finisher := Done)
    case Continue(_, how) =>
      l.(shared := Continued(l.shared, how), issuedAt := l.issuedAt + [l.marked], issued := l.issued + [how])
  }

  function Run(l: Life, steps: seq<Step>): Life
    decreases |steps|
  {
    if steps == [] then l else Run(Apply(l, steps[0]), steps[1..])
  }

  // ---------------------------------------------------------------- the invariant

  function Pauses(events: seq<Event>): nat {
    if events == [] then 0 else (if events[0].WallClockPaused? then 1 else 0) + Pauses(events[1..])
  }

  /** The event the forwarder holds, still to be pushed. */
  function Held(f: Forwarder): seq<Event> {
    if f.Clearing? || f.Marking? || f.Pushing? then [f.event] else []
  }

  /** Nothing sent is lost or reordered on the way to the buffer. */
  predicate Conserved(l: Life) {
    l.shared.events + Held(l.forwarder) + l.sink == l.emitted
  }

  /** The end is reached in order: driver, forwarder, finisher, terminal status. */
  predicate Ordered(l: Life) {
    && (l.forwarder.Exited? ==> l.sink == [] && l.driver.Ended?)
    && (!l.finisher.Waiting? ==> l.forwarder.Exited?)
    && (l.driver.Ended? ==> Terminal(l.driver.result))
    && (l.shared.receiving <==> !l.driver.Ended?)
    && (!l.finisher.Done? ==> !Terminal(l.shared.status))
    && (l.finisher.Done? ==> l.driver.Ended? && l.shared.status == l.driver.result)
    && (l.forwarder.Clearing? ==> !l.forwarder.event.WallClockPaused?)
  }

  /** At the end nothing is pending. */
  predicate Decided(l: Life) {
    !l.finisher.Waiting? ==> l.shared.pending.None?
  }

  /** The entries of `at` number the pauses 1, 2, 3, ... */
  predicate Numbered(at: seq<nat>) {
    forall i | 0 <= i < |at| :: at[i] == i + 1
  }

  predicate Matched(l: Life) {
    && Numbered(l.issuedAt) && Numbered(l.takenAt)
    && |l.takenAt| + |l.shared.continues| == |l.issuedAt| <= l.marked
    && l.marked + (if l.forwarder == Marking(WallClockPaused) then 1 else 0) + Pauses(l.sink) == l.pauses
    && (l.driver.Driving? ==> |l.takenAt| == l.pauses)
    && (l.driver.Paused? ==> |l.takenAt| + 1 == l.pauses)
    && l.pauses <= |l.takenAt| + 1
    && (l.shared.status.AwaitingContinue? ==> |l.issuedAt| + 1 == l.marked)
  }

  /** The status a buffer stands for: its last event that starts or ends a pause. */
  function StatusOf(events: seq<Event>): RunStatus {
    if events == [] then Running else
    var last := events[|events| - 1];
    if last.AwaitingApproval? then AwaitingDecision
    else if last.WallClockPaused? then AwaitingContinue
    else if last.Content? || last.ToolCallStarted? then Running
    else StatusOf(events[..|events| - 1])
  }

  /** The approval a buffer leaves undecided; a time-budget pause does not withdraw it. */
  function PendingOf(events: seq<Event>): Option<string> {
    if events == [] then None else
    var last := events[|events| - 1];
    if last.AwaitingApproval? then Some(last.approval)
    else if last.Content? || last.ToolCallStarted? then None
    else PendingOf(events[..|events| - 1])
  }

  /** `status` is what `events` stand for, or they end in a pause already continued. */
  predicate Shows(l: Life, events: seq<Event>) {
    || l.shared.status == StatusOf(events)
    || (StatusOf(events).AwaitingContinue? && l.shared.status.Running? && |l.issuedAt| == l.marked)
  }

  /** Whether the forwarder updates the status for `event` before pushing it. */
  predicate Marked(event: Event) {
    !Received(event).Pushing?
  }

  predicate Derived(l: Life) {
    var events := l.shared.events;
    match l.forwarder
    case Clearing(event) =>
      l.forwarder == Received(event) && Shows(l, events) && l.shared.pending == PendingOf(events)
    case Marking(event) =>
      Marked(event) && Shows(l, events) && l.shared.pending == PendingOf(events + [event])
    case Pushing(event) =>
      Shows(l, events + [event]) && l.shared.pending == PendingOf(events + [event])
    case _ =>
      && (!l.finisher.Done? ==> Shows(l, events))
      && (l.finisher.Waiting? ==> l.shared.pending == PendingOf(events))
  }

  /** A driver takes what clients asked for, in that order. */
  predicate Passed(l: Life) {
    l.taken + l.shared.continues == l.issued && |l.issued| == |l.issuedAt| && |l.taken| == |l.takenAt|
  }

  predicate PauseIsLast(l: Life) {
    l.driver.Paused? ==> l.emitted != [] && l.emitted[|l.emitted| - 1] == WallClockPaused
  }

  ghost predicate Inv(l: Life) {
    Conserved(l) && Ordered(l) && Matched(l) && Derived(l) && PauseIsLast(l) && Passed(l) && Decided(l)
  }

  lemma {:induction false} PausesAppend(a: seq<Event>, b: seq<Event>)
    ensures Pauses(a + b) == Pauses(a) + Pauses(b)
  {
    if a == [] {
      assert a + b == b;
    } else {
      assert (a + b)[1..] == a[1..] + b;
      PausesAppend(a[1..], b);
    }
  }

  lemma {:induction false} NoPauses(a: seq<Event>)
    requires !Pausing(a)
    ensures Pauses(a) == 0
  {
    if a != [] {
      assert forall e | e in a[1..] :: e in a;
      NoPauses(a[1..]);
    }
  }

  lemma SendKeepsConserved(l: Life, events: seq<Event>)
    requires Conserved(l)
    ensures Conserved(Sent(l, events))
  {
    assert l.shared.events + Held(l.forwarder) + (l.sink + events) == l.emitted + events;
  }

  lemma ConservedStep(l: Life, step: Step)
    requires Conserved(l)
    ensures Conserved(Apply(l, step))
  {
    if Enabled(l, step) {
      match step {
        case Emit(event) => SendKeepsConserved(l, [event]);
        case Pause => SendKeepsConserved(l, [WallClockPaused]);
        case End(_, last) => SendKeepsConserved(l, last);
        case Receive =>
          assert l.shared.events + [] + l.sink == l.shared.events + [l.sink[0]] + l.sink[1..];
        case Forward =>
          if l.forwarder.Pushing? {
            var e := l.forwarder.event;
            assert l.shared.events + [e] + l.sink == (l.shared.events + [e]) + [] + l.sink;
          }
        case _ =>
      }
    }
  }

  /** The driver adds to the channel: at most a pause, matched by its own phase. */
  lemma SendMatches(l: Life, step: Step)
    requires Ordered(l) && Matched(l) && Enabled(l, step) && (step.Emit? || step.Pause? || step.End?)
    ensures Matched(Apply(l, step))
  {
    match step {
      case Emit(event) =>
        PausesAppend(l.sink, [event]);
      case Pause =>
        PausesAppend(l.sink, [WallClockPaused]);
      case End(_, last) =>
        PausesAppend(l.sink, last);
        NoPauses(last);
    }
  }

  lemma MatchedStep(l: Life, step: Step)
    requires Ordered(l) && Matched(l)
    ensures Matched(Apply(l, step))
  {
    if Enabled(l, step) && (step.Emit? || step.Pause? || step.End?) {
      SendMatches(l, step);
    }
  }

  lemma Appended(events: seq<Event>, event: Event)
    ensures StatusOf(events + [event]) == if Marked(event) then Mark(event) else StatusOf(events)
    ensures PendingOf(events + [event]) ==
              if event.AwaitingApproval? then Some(event.approval)
              else if event.Content? || event.ToolCallStarted? then None
              else PendingOf(events)
  {
    assert (events + [event])[..|events|] == events;
  }

  /** The forwarder's own steps, one event at a time. */
  lemma DerivedForwarding(l: Life, step: Step)
    requires Ordered(l) && Matched(l) && Derived(l)
    requires step.Receive? || step.Forward?
    ensures Derived(Apply(l, step))
  {
    if Enabled(l, step) {
      Appended(l.shared.events, if step.Receive? then l.sink[0] else l.forwarder.event);
    }
  }

  lemma DerivedStep(l: Life, step: Step)
    requires Ordered(l) && Matched(l) && Derived(l)
    ensures Derived(Apply(l, step))
  {
    if step.Receive? || step.Forward? {
      DerivedForwarding(l, step);
    }
  }

  lemma PassedStep(l: Life, step: Step)
    requires Passed(l)
    ensures Passed(Apply(l, step))
  {
    if Enabled(l, step) && step.Take? {
      var c := l.shared.continues;
      assert l.taken + [c[0]] + c[1..] == l.taken + ([c[0]] + c[1..]) == l.taken + c;
    } else if Enabled(l, step) && step.Continue? {
      assert l.taken + (l.shared.continues + [step.how]) == l.issued + [step.how];
    }
  }

  lemma OrderedStep(l: Life, step: Step)
    requires Ordered(l) && PauseIsLast(l) && Decided(l)
    ensures Ordered(Apply(l, step)) && PauseIsLast(Apply(l, step)) && Decided(Apply(l, step))
  {
  }

  lemma InvStep(l: Life, step: Step)
    requires Inv(l)
    ensures Inv(Apply(l, step))
  {
    DerivedStep(l, step);
    OrderedStep(l, step);
    ConservedStep(l, step);
    MatchedStep(l, step);
    PassedStep(l, step);
  }

  lemma {:induction false} InvRun(l: Life, steps: seq<Step>)
    requires Inv(l)
    ensures Inv(Run(l, steps))
    decreases |steps|
  {
    if steps != [] {
      InvStep(l, steps[0]);
      InvRun(Apply(l, steps[0]), steps[1..]);
    }
  }

  // ---------------------------------------------------------------- what every run keeps

  /** A terminal status appears only once every event the run ever sent is buffered, in
    * the order it was sent; it is the status the driver returned, and nothing is pending. */
  lemma TerminalAfterDrain(pausing: bool, steps: seq<Step>)
    ensures var l := Run(Launched(pausing), steps);
            Terminal(l.shared.status) ==>
              l.shared.events == l.emitted && l.driver == Ended(l.shared.status) && l.shared.pending.None?
  {
    InvRun(Launched(pausing), steps);
    var l := Run(Launched(pausing), steps);
    if Terminal(l.shared.status) {
      assert l.shared.events + [] + [] == l.shared.events;
    }
  }

  lemma TerminalStep(l: Life, step: Step)
    requires Inv(l) && Terminal(l.shared.status)
    ensures Apply(l, step) == l
  {
  }

  /** What forwarder and finisher still have to do, and their next step. */
  function Left(l: Life): nat {
    4 * |l.sink|
    + (match l.forwarder
       case Clearing(_) => 4
       case Marking(_) => 3
       case Pushing(_) => 2
       case Idle => 1
       case Exited => 0)
    + if l.finisher.Waiting? then 2 else if l.finisher.Cleared? then 1 else 0
  }

  function Draining(l: Life): Step {
    match l.forwarder
    case Idle => if l.sink != [] then Receive else Exit
    case Exited => if l.finisher.Waiting? then ClearPending else SetFinal
    case _ => Forward
  }

  /** These are steps of the run's forwarder and finisher alone. */
  predicate Finishing(steps: seq<Step>) {
    forall step | step in steps :: step.Receive? || step.Forward? || step.Exit? || step.ClearPending? || step.SetFinal?
  }

  lemma DrainingStep(l: Life)
    requires Ordered(l) && l.driver.Ended? && !l.finisher.Done?
    ensures var m := Apply(l, Draining(l));
            Finishing([Draining(l)]) && Left(m) < Left(l) && m.driver == l.driver && m.emitted == l.emitted
  {
  }

  lemma FirstThen(l: Life, step: Step, rest: seq<Step>)
    ensures Run(l, [step] + rest) == Run(Apply(l, step), rest)
    ensures Finishing([step]) && Finishing(rest) ==> Finishing([step] + rest)
  {
    assert ([step] + rest)[1..] == rest && step in [step];
    assert forall s | s in [step] + rest :: s == step || s in rest;
  }

  /** It ends with this status and these events. */
  predicate EndsWith(l: Life, steps: seq<Step>, result: RunStatus, events: seq<Event>) {
    Run(l, steps).shared.status == result && Run(l, steps).shared.events == events
  }

  lemma DoneHasAll(l: Life)
    requires Conserved(l) && Ordered(l) && l.finisher.Done?
    ensures EndsWith(l, [], l.driver.result, l.emitted)
  {
    assert l.shared.events + [] + [] == l.shared.events;
  }

  /** A run whose driver has returned comes to its terminal status, all it sent buffered, by
    * the steps of its forwarder and finisher alone, whatever was still on the way. */
  lemma {:induction false} EndedRunsFinish(l: Life) returns (steps: seq<Step>)
    requires Inv(l) && l.driver.Ended?
    ensures Finishing(steps) && EndsWith(l, steps, l.driver.result, l.emitted)
    decreases Left(l)
  {
    if l.finisher.Done? {
      steps := [];
      DoneHasAll(l);
    } else {
      InvStep(l, Draining(l));
      DrainingStep(l);
      var rest := EndedRunsFinish(Apply(l, Draining(l)));
      steps := [Draining(l)] + rest;
      FirstThen(l, Draining(l), rest);
    }
  }

  /** And a driver can return at any point, so no run is stuck: from wherever it is, each
    * terminal status can be reached, with every event sent before and whatever comes last. */
  lemma NoRunIsStuck(pausing: bool, steps: seq<Step>, result: RunStatus, last: seq<Event>)
    requires Terminal(result) && !Pausing(last) && !Run(Launched(pausing), steps).driver.Ended?
    ensures var l := Run(Launched(pausing), steps); exists more :: EndsWith(l, more, result, l.emitted + last)
  {
    InvRun(Launched(pausing), steps);
    CanStillEnd(Run(Launched(pausing), steps), result, last);
  }

  lemma CanStillEnd(l: Life, result: RunStatus, last: seq<Event>)
    requires Inv(l) && Terminal(result) && !Pausing(last) && !l.driver.Ended?
    ensures exists more :: EndsWith(l, more, result, l.emitted + last)
  {
    InvStep(l, End(result, last));
    var rest := EndedRunsFinish(Apply(l, End(result, last)));
    FirstThen(l, End(result, last), rest);
    assert EndsWith(l, [End(result, last)] + rest, result, l.emitted + last);
  }

  /** Once terminal, nothing a task or a client does changes the run: in particular
    * `continue_with` does not. */
  lemma {:induction false} TerminalIsFinal(l: Life, steps: seq<Step>)
    requires Inv(l) && Terminal(l.shared.status)
    ensures Run(l, steps) == l
    decreases |steps|
  {
    if steps != [] {
      TerminalStep(l, steps[0]);
      TerminalIsFinal(l, steps[1..]);
    }
  }

  /** The buffer only grows, whatever happens. */
  lemma {:induction false} BufferGrows(l: Life, steps: seq<Step>)
    ensures l.shared.events <= Run(l, steps).shared.events
    decreases |steps|
  {
    if steps != [] {
      BufferGrows(Apply(l, steps[0]), steps[1..]);
    }
  }

  /** Each pause takes at most one continuation, under any number of concurrent
    * `continue_with` calls: at most one is ever queued, the i-th continuation is issued
    * for the i-th pause and taken, if at all, at that same pause, as what it asked for. */
  lemma OneContinuationPerPause(pausing: bool, steps: seq<Step>)
    ensures var l := Run(Launched(pausing), steps);
            && |l.shared.continues| <= 1
            && |l.issuedAt| <= l.pauses
            && l.takenAt <= l.issuedAt && l.taken <= l.issued
            && |l.taken| == |l.takenAt| && |l.issued| == |l.issuedAt|
            && (forall i | 0 <= i < |l.issuedAt| :: l.issuedAt[i] == i + 1)
            && (l.shared.continues != [] ==> l.issuedAt == l.takenAt + [l.pauses] && l.issued == l.taken + l.shared.continues)
  {
    InvRun(Launched(pausing), steps);
    MatchedMeans(Run(Launched(pausing), steps));
  }

  lemma MatchedMeans(l: Life)
    requires Matched(l) && Passed(l)
    ensures |l.shared.continues| <= 1 && |l.issuedAt| <= l.pauses
    ensures l.takenAt <= l.issuedAt && l.taken <= l.issued
    ensures l.shared.continues != [] ==> l.issuedAt == l.takenAt + [l.pauses]
  {
  }

  /** What a client reads of a run that has not ended is what the buffer stands for,
    * whenever the forwarder is between two events. */
  lemma StatusFollowsBuffer(pausing: bool, steps: seq<Step>)
    ensures var l := Run(Launched(pausing), steps);
            l.forwarder.Idle? ==>
              && l.shared.pending == PendingOf(l.shared.events)
              && (l.shared.status == StatusOf(l.shared.events)
                  || (StatusOf(l.shared.events).AwaitingContinue? && l.shared.status.Running? && |l.issuedAt| == l.marked))
  {
    InvRun(Launched(pausing), steps);
    var l := Run(Launched(pausing), steps);
    assert l.shared.events + [] == l.shared.events;
  }

  /** A paused driver is never out of reach: once the forwarder has caught up, a client's
    * `continue_with` takes a continuation exactly when the run is not revoked and none is
    * queued for the driver already. */
  lemma PausedCanContinue(pausing: bool, steps: seq<Step>, revoked: bool)
    ensures var l := Run(Launched(pausing), steps);
            l.driver.Paused? && l.forwarder.Idle? && l.sink == [] ==>
              |l.shared.continues| <= 1 && (Takes(l.shared, revoked) <==> !revoked && l.shared.continues == [])
  {
    InvRun(Launched(pausing), steps);
    var l := Run(Launched(pausing), steps);
    if l.driver.Paused? && l.forwarder.Idle? && l.sink == [] {
      assert l.shared.events + [] + [] == l.shared.events;
      assert l.shared.events + [] == l.shared.events;
    }
  }

  predicate Shown(s: Shared) {
    s.status == StatusOf(s.events) && s.pending == PendingOf(s.events)
  }

  /** One turn of the forwarder's loop, undisturbed: the run shows what its buffer stands
    * for again once the event is pushed. */
  method ForwardOne(run: RunState, event: Event)
    requires Shown(run.Value())
    modifies run
    ensures run.Value().(status := old(run.status), pending := old(run.pending)) == Pushed(old(run.Value()), event)
    ensures Shown(run.Value())
    ensures run.notified > old(run.notified)
  {
    Appended(run.events, event);
    match event {
      case AwaitingApproval(approval) =>
        run.SetPending(Some(approval));
        run.SetStatus(AwaitingDecision);
      case WallClockPaused =>
        run.SetStatus(AwaitingContinue);
      case ToolCallStarted(_) =>
        run.SetPending(None);
        run.SetStatus(Running);
      case Content(_) =>
        run.SetPending(None);
        run.SetStatus(Running);
      case _ =>
    }
    run.PushEvent(event);
  }

  method ForwardAll(run: RunState, sink: seq<Event>)
    requires Shown(run.Value())
    modifies run
    ensures run.events == old(run.events) + sink
    ensures Shown(run.Value())
    ensures run.continues == old(run.continues) && run.receiving == old(run.receiving)
  {
    var i := 0;
    while i < |sink|
      invariant 0 <= i <= |sink|
      invariant run.events == old(run.events) + sink[..i]
      invariant Shown(run.Value())
      invariant run.continues == old(run.continues) && run.receiving == old(run.receiving)
    {
      assert sink[..i] + [sink[i]] == sink[..i + 1];
      ForwardOne(run, sink[i]);
      i := i + 1;
    }
    assert sink[..i] == sink;
  }
}
