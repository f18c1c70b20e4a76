/** Observers of a run: any number of tasks looping on `wait_from` while the run's own
  * tasks and its clients change it.
  *
  * A change is two steps of its writer, the change itself and then `notify_waiters`,
  * which wakes exactly the waiters enabled at that moment. A wait is three steps of its
  * observer: enable, read, sleep. Every interleaving of all of them is a list of `Step`s.
  */
module Observers {
  import opened Wrappers
  import opened Runs
  import Lifecycle

  datatype Writer = Forwarder | Finisher | Client(client: nat)

  datatype Phase = Top | Enabled | Asleep | Finished

  /** An observer that began at `start`: `got` is everything its waits returned. */
  datatype Observer = Observer(phase: Phase, woken: bool, start: nat, seen: nat, got: seq<Event>)

  /** `flight` holds the writers between a change and its notification. */
  datatype System = System(life: Lifecycle.Life, flight: set<Writer>, observers: map<nat, Observer>)

  datatype Step =
    | Change(step: Lifecycle.Step)
    | Notify(writer: Writer)
    | Join(observer: nat, start: nat)
    | Enable(observer: nat)
    | Read(observer: nat)
    | Wake(observer: nat)
    | Leave(observer: nat)

  function Launched(pausing: bool): System {
    System(Lifecycle.Launched(pausing), {}, map[])
  }

  /** Who makes `step`, if it is a change observers are notified of. */
  function NotifiedBy(l: Lifecycle.Life, step: Lifecycle.Step): Option<Writer> {
    match step
    case Forward => if l.forwarder.Clearing? then None else Some(Forwarder)
    case SetFinal => Some(Finisher)
    case Continue(client, _) => Some(Client(client))
    case _ => None
  }

  /** A writer notifies before it does anything else, and the finisher waits for the
    * forwarder's task to end. */
  predicate Free(s: System, step: Lifecycle.Step) {
    match step
    case Receive => Forwarder !in s.flight
    case Forward => Forwarder !in s.flight
    case Exit => Forwarder !in s.flight
    case ClearPending => Finisher !in s.flight
    case SetFinal => Finisher !in s.flight
    case Continue(client, _) => Client(client) !in s.flight
    case _ => true
  }

  predicate In(s: System, o: nat, phase: Phase) {
    o in s.observers && s.observers[o].phase == phase
  }

  predicate Possible(s: System, step: Step) {
    match step
    case Change(change) => Free(s, change) && Lifecycle.Enabled(s.life, change)
    case Notify(writer) => writer in s.flight
    case Join(o, _) => o !in s.observers
    case Enable(o) => In(s, o, Top)
    case Read(o) => In(s, o, Enabled)
    case Wake(o) => In(s, o, Asleep) && s.observers[o].woken
    case Leave(o) => o in s.observers
  }

  function Woken(o: Observer): Observer {
    if o.phase.Enabled? || o.phase.Asleep? then o.(woken := true) else o
  }

  /** The read of an enabled observer, and its return when there is news. */
  function AfterRead(o: Observer, shared: Shared): Observer {
    if News(shared, o.seen) then
      var rest := After(shared, o.seen);
      o.(phase := if Terminal(shared.status) then Finished else Top,
         seen := o.seen + |rest|,
         got := o.got + rest)
    else o.(phase := Asleep)
  }

  function Apply(s: System, step: Step): System {
    if !Possible(s, step) then s else
    match step
    case Change(change) =>
      var life := Lifecycle.Apply(s.life, change);
      var writer := NotifiedBy(s.life, change);
      s.(life := life, flight := if writer.Some? then s.flight + {writer.value} else s.flight)
    case Notify(writer) =>
      s.(flight := s.flight - {writer}, observers := map o | o in s.observers :: Woken(s.observers[o]))
    case Join(o, start) =>
      s.(observers := s.observers[o := Observer(Top, false, start, start, [])])
    case Enable(o) =>
      s.(observers := s.observers[o := s.observers[o].(phase := Phase.Enabled, woken := false)])
    case Read(o) =>
      s.(observers := s.observers[o := AfterRead(s.observers[o], s.life.shared)])
    case Wake(o) =>
      s.(observers := s.observers[o := s.observers[o].(phase := Top)])
    case Leave(o) =>
      s.(observers := s.observers - {o})
  }

  function Run(s: System, steps: seq<Step>): System
    decreases |steps|
  {
    if steps == [] then s else Run(Apply(s, steps[0]), steps[1..])
  }

  // ---------------------------------------------------------------- the invariant

  /** A sleeper nobody woke has nothing to see, unless a notification is on its way. */
  predicate NotLost(s: System, o: Observer) {
    o.phase.Asleep? && !o.woken ==> !News(s.life.shared, o.seen) || s.flight != {}
  }

  /** What an observer got is the buffer from its start, once and in order. */
  predicate Faithful(shared: Shared, o: Observer) {
    && o.seen == o.start + |o.got|
    && (o.got != [] ==> o.seen <= |shared.events| && o.got == shared.events[o.start..o.seen])
  }

  /** An observer that returned with a terminal status has the whole rest of the buffer. */
  predicate Complete(shared: Shared, o: Observer) {
    o.phase.Finished? ==> Terminal(shared.status) && o.got == After(shared, o.start)
  }

  ghost predicate Inv(s: System) {
    && Lifecycle.Inv(s.life)
    && forall o | o in s.observers ::
         NotLost(s, s.observers[o]) && Faithful(s.life.shared, s.observers[o]) && Complete(s.life.shared, s.observers[o])
  }

  lemma ReadKeeps(shared: Shared, o: Observer)
    requires o.phase.Enabled? && Faithful(shared, o)
    ensures Faithful(shared, AfterRead(o, shared)) && Complete(shared, AfterRead(o, shared))
  {
    if o.seen < |shared.events| {
      assert shared.events[o.start..o.seen] + shared.events[o.seen..] == shared.events[o.start..];
      assert shared.events[o.start..|shared.events|] == shared.events[o.start..];
    }
  }

  /** Changes to the run disturb no observer: the buffer grows and a terminal run is final. */
  lemma ChangeKeeps(s: System, change: Lifecycle.Step, o: Observer)
    requires Lifecycle.Inv(s.life)
    requires Possible(s, Change(change))
    requires NotLost(s, o) && Faithful(s.life.shared, o) && Complete(s.life.shared, o)
    ensures var t := Apply(s, Change(change));
            NotLost(t, o) && Faithful(t.life.shared, o) && Complete(t.life.shared, o)
  {
    var l, m := s.life, Lifecycle.Apply(s.life, change);
    Lifecycle.BufferGrows(l, [change]);
    assert Lifecycle.Run(l, [change]) == Lifecycle.Run(m, []) == m;
    if Terminal(l.shared.status) {
      Lifecycle.TerminalStep(l, change);
    }
    if NotifiedBy(l, change).None? {
      assert m.shared.events == l.shared.events && m.shared.status == l.shared.status;
    }
  }

  lemma InvStep(s: System, step: Step)
    requires Inv(s)
    ensures Inv(Apply(s, step))
  {
    var t := Apply(s, step);
    if Possible(s, step) {
      if step.Change? {
        Lifecycle.InvStep(s.life, step.step);
      }
      forall o | o in t.observers
        ensures NotLost(t, t.observers[o]) && Faithful(t.life.shared, t.observers[o]) && Complete(t.life.shared, t.observers[o])
      {
        match step {
          case Change(change) => ChangeKeeps(s, change, s.observers[o]);
          case Read(who) =>
            if o == who {
              ReadKeeps(s.life.shared, s.observers[o]);
            }
          case _ =>
        }
      }
    }
  }

  lemma {:induction false} InvRun(s: System, steps: seq<Step>)
    requires Inv(s)
    ensures Inv(Run(s, steps))
    decreases |steps|
  {
    if steps != [] {
      InvStep(s, steps[0]);
      InvRun(Apply(s, steps[0]), steps[1..]);
    }
  }

  // ---------------------------------------------------------------- what every run keeps

  /** No wake-up is lost: with no writer between its change and its notification, a
    * sleeping observer nobody woke has nothing new to see. */
  lemma NoWakeUpLost(pausing: bool, steps: seq<Step>, o: nat)
    ensures var s := Run(Launched(pausing), steps);
            In(s, o, Asleep) && !s.observers[o].woken && s.flight == {} ==>
              !News(s.life.shared, s.observers[o].seen)
  {
    InvRun(Launched(pausing), steps);
  }

  lemma FaithfulIsPrefix(shared: Shared, o: Observer)
    requires Faithful(shared, o)
    ensures o.got <= After(shared, o.start)
  {
    if o.got != [] {
      assert o.got == After(shared, o.start)[..|o.got|];
    }
  }

  /** Every observer, from any start, has collected each buffered event past its start
    * once and in order; one that saw the end holds all of them, and every event the run
    * ever sent is among those. */
  lemma ObserversSeeEverything(pausing: bool, steps: seq<Step>, o: nat)
    requires o in Run(Launched(pausing), steps).observers
    ensures var s := Run(Launched(pausing), steps);
            var it := s.observers[o];
            && it.got <= After(s.life.shared, it.start)
            && (it.phase.Finished? ==>
                  && Terminal(s.life.shared.status)
                  && s.life.shared.events == s.life.emitted
                  && it.got == After(s.life.shared, it.start))
  {
    var s := Run(Launched(pausing), steps);
    InvRun(Launched(pausing), steps);
    FaithfulIsPrefix(s.life.shared, s.observers[o]);
    if Terminal(s.life.shared.status) {
      DrainedAtTheEnd(s.life);
    }
  }

  lemma DrainedAtTheEnd(l: Lifecycle.Life)
    requires Lifecycle.Inv(l) && Terminal(l.shared.status)
    ensures l.shared.events == l.emitted
  {
    assert l.shared.events + [] + [] == l.shared.events;
  }

  /** Anyone can join, at any position: a first wait returns at once with what there is past
    * it, and sleeps exactly when there is nothing, to be woken by the next notification. */
  lemma FirstWait(s: System, o: nat, start: nat, writer: Writer)
    requires o !in s.observers
    ensures var t := Run(s, [Join(o, start), Enable(o), Read(o)]);
            && o in t.observers && t.life == s.life && t.flight == s.flight
            && (if News(s.life.shared, start) then !t.observers[o].phase.Asleep? && t.observers[o].got == After(s.life.shared, start)
                else t.observers[o] == Observer(Asleep, false, start, start, []))
            && (writer in t.flight ==> Apply(t, Notify(writer)).observers[o].woken || News(s.life.shared, start))
            && o !in Apply(t, Leave(o)).observers
  {
    var steps := [Join(o, start), Enable(o), Read(o)];
    var s1 := Apply(s, steps[0]);
    var s2 := Apply(s1, steps[1]);
    var s3 := Apply(s2, steps[2]);
    assert steps[1..] == [steps[1], steps[2]] && [steps[1], steps[2]][1..] == [steps[2]] && [steps[2]][1..] == [];
    assert Run(s, steps) == Run(s1, steps[1..]) == Run(s2, [steps[2]]) == Run(s3, []) == s3;
    assert [] + After(s.life.shared, start) == After(s.life.shared, start);
  }

  /** Whatever woke an observer before, a wait that finds nothing sleeps unwoken. */
  lemma NextWait(s: System, o: nat)
    requires In(s, o, Top) && !News(s.life.shared, s.observers[o].seen)
    ensures var t := Apply(Apply(s, Enable(o)), Read(o)); In(t, o, Asleep) && !t.observers[o].woken
  {
  }

  /** A run's step with its notification, as a writer takes them. */
  function Told(l: Lifecycle.Life, step: Lifecycle.Step): seq<Step> {
    if Lifecycle.Enabled(l, step) && NotifiedBy(l, step).Some? then [Change(step), Notify(NotifiedBy(l, step).value)] else [Change(step)]
  }

  function AllTold(l: Lifecycle.Life, steps: seq<Lifecycle.Step>): seq<Step>
    decreases |steps|
  {
    if steps == [] then [] else Told(l, steps[0]) + AllTold(Lifecycle.Apply(l, steps[0]), steps[1..])
  }

  lemma {:induction false} RunJoins(s: System, a: seq<Step>, b: seq<Step>)
    ensures Run(s, a + b) == Run(Run(s, a), b)
    decreases |a|
  {
    if a == [] {
      assert a + b == b;
    } else {
      assert (a + b)[1..] == a[1..] + b;
      RunJoins(Apply(s, a[0]), a[1..], b);
    }
  }

  /** Observers do not hold the run up: whatever it can do without them it can do with them,
    * everybody notified at the end. */
  lemma {:induction false} TheRunGoesOn(s: System, steps: seq<Lifecycle.Step>)
    requires s.flight == {}
    ensures var t := Run(s, AllTold(s.life, steps)); t.life == Lifecycle.Run(s.life, steps) && t.flight == {}
    decreases |steps|
  {
    if steps != [] {
      var told := Told(s.life, steps[0]);
      var t := Run(s, told);
      var s1 := Apply(s, Change(steps[0]));
      assert told[0] == Change(steps[0]) && Run(s, told) == Run(s1, told[1..]);
      if |told| == 2 {
        assert told[1..] == [told[1]] && [told[1]][1..] == [];
        assert Run(s1, [told[1]]) == Run(Apply(s1, told[1]), []) == Apply(s1, told[1]);
      } else {
        assert told[1..] == [];
      }
      assert t.life == Lifecycle.Apply(s.life, steps[0]) && t.flight == {};
      TheRunGoesOn(t, steps[1..]);
      RunJoins(s, told, AllTold(t.life, steps[1..]));
    }
  }

  /** The steps with which observer `o` alone gets from its phase to its next return. */
  function Path(s: System, o: nat): seq<Step>
    requires o in s.observers
  {
    match s.observers[o].phase
    case Finished => []
    case Enabled => [Read(o)]
    case Top => [Enable(o), Read(o)]
    case Asleep => [Wake(o), Enable(o), Read(o)]
  }

  /** After the run has ended and its last notification went out, nobody is stuck: each
    * observer returns with the whole rest of the buffer by its own steps alone. */
  lemma TheEndReachesEveryone(s: System, o: nat)
    requires Inv(s) && Terminal(s.life.shared.status) && s.flight == {}
    requires o in s.observers
    ensures var t := Run(s, Path(s, o));
            && In(t, o, Finished)
            && t.life == s.life
            && t.observers[o].got == After(s.life.shared, s.observers[o].start)
  {
    InvRun(s, Path(s, o));
    var path := Path(s, o);
    assert NotLost(s, s.observers[o]);
    if |path| > 0 {
      var s1 := Apply(s, path[0]);
      assert Run(s, path) == Run(s1, path[1..]);
      if |path| > 1 {
        var s2 := Apply(s1, path[1]);
        assert Run(s1, path[1..]) == Run(s2, path[1..][1..]);
        if |path| > 2 {
          var s3 := Apply(s2, path[2]);
          assert Run(s2, path[1..][1..]) == Run(s3, path[1..][1..][1..]) == s3;
        }
      }
    }
  }
}
