/** The shared revalidation monitor: one task that sweeps while revocable runs are
  * active, started by whoever launches a run and stopped by itself.
  *
  * A launch counts its run and then ensures a monitor, in two separate steps; the slot
  * that holds the monitor's handle changes only under its lock, but the count does not.
  * `Monitor` performs the locked sections in place; `World` adds the tasks around it and
  * is where interleavings are proved about.
  */
module Monitors {

  import opened Wrappers

  /** A monitor task: about to tick, done with a sweep, about to give up because the
    * manager is gone, returning, or finished. */
  datatype Task = Ticking | Swept | Quitting | Returning | Finished

  /** The monitor's own fields. `tasks` are the tasks ever spawned, by number. */
  datatype Value = Value(slot: Option<nat>, active: int, tasks: seq<Task>)

  /** Whether task `m` may still tick. */
  predicate Live(v: Value, m: nat) {
    m < |v.tasks| && (v.tasks[m].Ticking? || v.tasks[m].Swept? || v.tasks[m].Quitting?)
  }

  function Counted(v: Value): Value {
    v.(active := v.active + 1)
  }

  function Ensured(v: Value): Value {
    if v.slot.Some? && v.slot.value < |v.tasks| && !v.tasks[v.slot.value].Finished? then v
    else v.(slot := Some(|v.tasks|), tasks := v.tasks + [Ticking])
  }

  function Ended(v: Value): Value {
    v.(active := v.active - 1)
  }

  /** The end of a sweep: stop if nothing is active any more, else tick again. */
  function Concluded(v: Value, m: nat): Value
    requires m < |v.tasks|
  {
    if v.active == 0 then v.(slot := None, tasks := v.tasks[m := Returning])
    else v.(tasks := v.tasks[m := Ticking])
  }

  class Monitor {
    var slot: Option<nat>
    var active: int
    var tasks: seq<Task>

    function Get(): Value
      reads this
    {
      Value(slot, active, tasks)
    }

    constructor ()
      ensures Get() == Value(None, 0, [])
    {
      slot, active, tasks := None, 0, [];
    }

    method CountRun()
      modifies this
      ensures Get() == Counted(old(Get()))
    {
      active := active + 1;
    }

    /** Starts a monitor unless one is running; afterwards the slot names one that has
      * not finished. */
    method EnsureMonitor()
      modifies this
      ensures Get() == Ensured(old(Get()))
      ensures slot.Some? && slot.value < |tasks| && !tasks[slot.value].Finished?
      ensures active == old(active)
      ensures tasks == old(tasks) <==> old(slot).Some? && old(slot).value < |old(tasks)| && !old(tasks)[old(slot).value].Finished?
      ensures old(tasks) <= tasks && |tasks| <= |old(tasks)| + 1
    {
      if slot.Some? && slot.value < |tasks| && !tasks[slot.value].Finished? {
        return;
      }
      slot := Some(|tasks|);
      tasks := tasks + [Ticking];
    }

    method EndRun()
      modifies this
      ensures Get() == Ended(old(Get()))
    {
      active := active - 1;
    }

    method ConcludeSweep(m: nat)
      requires m < |tasks|
      modifies this
      ensures Get() == Concluded(old(Get()), m) && active == old(active)
      ensures slot == (if active == 0 then None else old(slot)) && tasks == old(tasks)[m := if active == 0 then Returning else Ticking]
    {
      if active == 0 {
        slot := None;
        tasks := tasks[m := Returning];
        return;
      }
      tasks := tasks[m := Ticking];
    }
  }

  // ---------------------------------------------------------------- the tasks around it

  /** `counting` are the launches between counting their run and ensuring a monitor,
    * `running` the supervised runs past that and not yet ended. `launched` and `ended`
    * are history. */
  datatype World = World(v: Value, present: bool, counting: set<nat>, running: set<nat>, launched: set<nat>, ended: set<nat>)

  datatype Step =
    | Launch(run: nat) | Ensure(run: nat) | End(run: nat)
    | Tick(task: nat) | Conclude(task: nat) | Quit(task: nat) | Return(task: nat)
    | DropManager

  function Begun(): World {
    World(Value(None, 0, []), true, {}, {}, {}, {})
  }

  predicate At(w: World, m: nat, task: Task) {
    m < |w.v.tasks| && w.v.tasks[m] == task
  }

  predicate Possible(w: World, step: Step) {
    match step
    case Launch(run) => w.present && run !in w.launched
    case Ensure(run) => run in w.counting
    case End(run) => run in w.running
    case Tick(m) => At(w, m, Ticking)
    case Conclude(m) => At(w, m, Swept)
    case Quit(m) => At(w, m, Quitting)
    case Return(m) => At(w, m, Returning)
    // A launch borrows the manager.
    case DropManager => w.present && w.counting == {}
  }

  function Apply(w: World, step: Step): World {
    if !Possible(w, step) then w else
    match step
    case Launch(run) => w.(v := Counted(w.v), counting := w.counting + {run}, launched := w.launched + {run})
    case Ensure(run) => w.(v := Ensured(w.v), counting := w.counting - {run}, running := w.running + {run})
    case End(run) => w.(v := Ended(w.v), running := w.running - {run}, ended := w.ended + {run})
    // The sweep needs the runs, which live as long as the manager.
    case Tick(m) => w.(v := w.v.(tasks := w.v.tasks[m := if w.present then Swept else Quitting]))
    case Conclude(m) => w.(v := Concluded(w.v, m))
    case Quit(m) => w.(v := w.v.(slot := None, tasks := w.v.tasks[m := Returning]))
    case Return(m) => w.(v := w.v.(tasks := w.v.tasks[m := Finished]))
    case DropManager => w.(present := false)
  }

  function Run(w: World, steps: seq<Step>): World
    decreases |steps|
  {
    if steps == [] then w else Run(Apply(w, steps[0]), steps[1..])
  }

  /** Whoever may still tick is the one the slot names, and the slot names nobody else. */
  ghost predicate Owned(v: Value) {
    forall m: nat :: Live(v, m) <==> v.slot == Some(m)
  }

  /** While the manager is there, a run past its launch is watched by one that stays. */
  ghost predicate Watched(w: World) {
    && (w.present && w.running != {} ==> w.v.slot.Some?)
    && (w.present ==> forall m: nat | m < |w.v.tasks| :: !w.v.tasks[m].Quitting?)
  }

  predicate Tallied(w: World) {
    w.v.active == |w.counting| + |w.running| && Parted(w)
  }

  /** Every launched run is in exactly one place. */
  predicate Parted(w: World) {
    && w.counting <= w.launched && w.running <= w.launched && w.ended <= w.launched
    && forall run | run in w.launched ::
         && (run in w.counting || run in w.running || run in w.ended)
         && !(run in w.counting && run in w.running)
         && !(run in w.counting && run in w.ended)
         && !(run in w.running && run in w.ended)
  }

  ghost predicate Inv(w: World) {
    Owned(w.v) && Watched(w) && Tallied(w)
  }

  lemma PartedStep(w: World, step: Step)
    requires Parted(w)
    ensures Parted(Apply(w, step))
  {
  }

  lemma TalliedStep(w: World, step: Step)
    requires Tallied(w)
    ensures Tallied(Apply(w, step))
  {
    PartedStep(w, step);
    if Possible(w, step) {
      match step {
        case Launch(run) => assert run !in w.counting;
        case Ensure(run) => assert run in w.launched && run !in w.running;
        case _ =>
      }
    }
  }

  lemma EnsureKeepsOwned(v: Value)
    requires Owned(v)
    ensures Owned(Ensured(v)) && Ensured(v).slot.Some? && Live(Ensured(v), Ensured(v).slot.value)
    ensures v.tasks <= Ensured(v).tasks
    ensures Ensured(v).tasks == v.tasks || Ensured(v).tasks == v.tasks + [Ticking]
  {
    if v.slot.Some? {
      assert Live(v, v.slot.value);
    } else {
      var x := Ensured(v);
      forall m: nat
        ensures Live(x, m) <==> x.slot == Some(m)
      {
        assert !Live(v, m);
        if m < |v.tasks| {
          assert x.tasks[m] == v.tasks[m];
        }
      }
    }
  }

  /** A monitor's own step: it stays the one live task, or gives up the slot. */
  lemma TaskStepKeepsOwned(v: Value, m: nat, task: Task)
    requires Owned(v) && m < |v.tasks|
    ensures Live(v, m) && !task.Returning? && !task.Finished? ==> Owned(v.(tasks := v.tasks[m := task]))
    ensures Live(v, m) && task.Returning? ==> Owned(v.(slot := None, tasks := v.tasks[m := task]))
    ensures !Live(v, m) && task.Finished? ==> Owned(v.(tasks := v.tasks[m := task]))
  {
    var stayed := v.(tasks := v.tasks[m := task]);
    var left := v.(slot := None, tasks := v.tasks[m := task]);
    assert forall n: nat | n != m :: (Live(stayed, n) <==> Live(v, n)) && (Live(left, n) <==> Live(v, n));
  }

  lemma OwnedStep(w: World, step: Step)
    requires Owned(w.v)
    ensures Owned(Apply(w, step).v)
  {
    if Possible(w, step) {
      match step {
        case Launch(_) =>
          assert forall m: nat :: Live(Counted(w.v), m) <==> Live(w.v, m);
        case End(_) =>
          assert forall m: nat :: Live(Ended(w.v), m) <==> Live(w.v, m);
        case Ensure(_) =>
          EnsureKeepsOwned(w.v);
        case Tick(m) =>
          TaskStepKeepsOwned(w.v, m, if w.present then Swept else Quitting);
        case Conclude(m) =>
          TaskStepKeepsOwned(w.v, m, if w.v.active == 0 then Returning else Ticking);
        case Quit(m) =>
          TaskStepKeepsOwned(w.v, m, Returning);
        case Return(m) =>
          TaskStepKeepsOwned(w.v, m, Finished);
        case DropManager =>
      }
    }
  }

  lemma WatchedStep(w: World, step: Step)
    requires Owned(w.v) && Watched(w) && Tallied(w)
    ensures Watched(Apply(w, step))
  {
    if Possible(w, step) {
      match step {
        case Ensure(_) =>
          EnsureKeepsOwned(w.v);
        case Conclude(m) =>
          if w.v.active == 0 {
            assert w.running == {};
          }
        case _ =>
      }
    }
  }

  lemma InvStep(w: World, step: Step)
    requires Inv(w)
    ensures Inv(Apply(w, step))
  {
    TalliedStep(w, step);
    OwnedStep(w, step);
    WatchedStep(w, step);
  }

  lemma {:induction false} InvRun(w: World, steps: seq<Step>)
    requires Inv(w)
    ensures Inv(Run(w, steps))
    decreases |steps|
  {
    if steps != [] {
      InvStep(w, steps[0]);
      InvRun(Apply(w, steps[0]), steps[1..]);
    }
  }

  lemma Initially()
    ensures Inv(Begun())
  {
  }

  /** Whenever a supervised run is counted and no launch is halfway, a monitor lives that
    * will tick again, however launches, endings and the monitor's own exits interleave. */
  lemma ActiveRunsAreWatched(steps: seq<Step>)
    ensures var w := Run(Begun(), steps);
            w.present && w.v.active > 0 && w.counting == {} ==>
              exists m: nat :: Live(w.v, m) && !w.v.tasks[m].Quitting?
  {
    Initially();
    InvRun(Begun(), steps);
    var w := Run(Begun(), steps);
    if w.present && w.v.active > 0 && w.counting == {} {
      assert w.running != {};
      assert Live(w.v, w.v.slot.value);
    }
  }

  /** At most one monitor will ever tick again. */
  lemma OneMonitor(steps: seq<Step>, m: nat, n: nat)
    ensures var w := Run(Begun(), steps);
            Live(w.v, m) && Live(w.v, n) ==> m == n
  {
    Initially();
    InvRun(Begun(), steps);
  }

  lemma SetSizes<T>(a: set<T>, b: set<T>)
    requires a !! b
    ensures |a + b| == |a| + |b|
  {
    assert (a + b) - b == a;
  }

  /** The count is the runs launched minus the runs ended, so it never underflows. */
  lemma ActiveIsLaunchedMinusEnded(steps: seq<Step>)
    ensures var w := Run(Begun(), steps);
            w.v.active == |w.launched| - |w.ended| >= 0
  {
    Initially();
    InvRun(Begun(), steps);
    var w := Run(Begun(), steps);
    assert w.launched == w.counting + w.running + w.ended;
    SetSizes(w.counting, w.running);
    SetSizes(w.counting + w.running, w.ended);
  }

  /** A launch counts its run before it ensures a monitor, and the end of the run uncounts it:
    * after all three only the monitor and the history are left of it. */
  lemma RunsComeAndGo(w: World, run: nat)
    requires w.present && run !in w.launched && Parted(w)
    ensures var x := Apply(w, Launch(run));
            var y := Apply(x, Ensure(run));
            var z := Apply(y, End(run));
            && x.v == w.v.(active := w.v.active + 1) && x.counting == w.counting + {run}
            && y.v == Ensured(x.v) && y.counting == w.counting && y.running == w.running + {run}
            && z.v == y.v.(active := w.v.active) && z.running == w.running && z.ended == w.ended + {run}
  {
    assert w.counting + {run} - {run} == w.counting && w.running + {run} - {run} == w.running;
  }

  /** While runs are active a monitor sweeps on every tick and goes on. */
  lemma BusyMonitorSweeps(w: World, m: nat)
    requires w.present && w.v.active > 0 && At(w, m, Ticking)
    ensures At(Apply(w, Tick(m)), m, Swept) && Apply(Apply(w, Tick(m)), Conclude(m)) == w
  {
    assert w.v.tasks[m := Swept][m := Ticking] == w.v.tasks;
  }

  /** Without the manager nothing is launched, and the monitor gives up at its next tick. */
  lemma MonitorGoesWithTheManager(w: World, m: nat, run: nat)
    requires w.present && w.counting == {} && At(w, m, Ticking)
    ensures var x := Apply(w, DropManager);
            var y := Apply(Apply(Apply(x, Tick(m)), Quit(m)), Return(m));
            !Possible(x, Launch(run)) && !y.present && At(y, m, Finished) && y.v.slot.None?
  {
  }

  /** With no run left and nobody launching, the monitor's own steps end it: it costs
    * nothing while no revocable run is active. */
  lemma IdleMonitorStops(w: World, m: nat)
    requires Inv(w) && w.v.active == 0 && Live(w.v, m)
    ensures var x := Run(w, if w.v.tasks[m].Ticking? then [Tick(m), Conclude(m), Quit(m)] else [Conclude(m), Quit(m)]);
            x.v.slot.None? && (forall n: nat :: !Live(x.v, n)) && At(Apply(x, Return(m)), m, Finished)
  {
    var steps := if w.v.tasks[m].Ticking? then [Tick(m), Conclude(m), Quit(m)] else [Conclude(m), Quit(m)];
    InvRun(w, steps);
    var x1 := Apply(w, steps[0]);
    var x2 := Apply(x1, steps[1]);
    assert steps[1..][0] == steps[1];
    assert Run(w, steps) == Run(x1, steps[1..]) == Run(x2, steps[1..][1..]);
    if |steps| == 3 {
      assert steps[1..][1..] == [steps[2]] && [steps[2]][1..] == [];
      assert Run(x2, [steps[2]]) == Run(Apply(x2, steps[2]), []);
    } else {
      assert steps[1..][1..] == [];
    }
  }
}
