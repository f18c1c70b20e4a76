/** Nothing the editor server owes is stuck: the reader comes to the end of what it is
  * answering, and a prompt whose run has ended by a cancel comes to its response, each by
  * its own steps alone.
  */
module AcpProgress {
  import opened Wrappers
  import opened Runs
  import opened AcpState
  import opened Acp

  /** How far prompt `t` is from its response, its run `r` having ended. */
  function Left(t: Task, r: Managed): int {
    (|r.events| - t.sent)
    + match t.phase
      case Responding(_) => 1
      case Releasing(_) => 2
      case Sending(status) => if Terminal(status) then 3 else 12
      case Waiting => 4
      case Deciding(_, _, _) => 5
      case Dropping(_, _) => 6
      case Parked(_, _, _) => 7
      case Announcing(_, _, _) => 8
      case Registering(_, _) => 9
      case Asking(_) => 10
      case Starting => 13
  }

  /** What the task does next; of a saved session the run can or cannot be `saved`. */
  function Next(k: nat, t: Task, saved: bool): Step {
    match t.phase
    case Responding(_) => Respond(k)
    case Releasing(_) => Release(k, saved)
    case Sending(_) => Go(k, if t.sent < t.seen then Forward else Proceed)
    case Waiting => Go(k, Read)
    case Deciding(_, _, _) => Go(k, Decide)
    case Dropping(_, _) => Go(k, Unregister)
    case Parked(_, _, _) => Go(k, Wake)
    case Announcing(_, _, _) => Go(k, Announce)
    case Registering(_, _) => Go(k, Register)
    case Asking(_) => Go(k, Take)
    case Starting => Start(k)
  }

  /** After a batch a task gives the session up exactly if the run had ended, asks the client
    * exactly if the run waited for a decision it has not asked for, and else waits. */
  lemma AfterABatch(w: World, k: nat)
    requires k in w.tasks && k in w.runs && w.tasks[k].phase.Sending? && w.tasks[k].sent == w.tasks[k].seen
    ensures var t, r := w.tasks[k], w.runs[k];
            var u := Apply(w, Go(k, Proceed)).tasks[k];
            && (u.phase.Releasing? <==> Terminal(t.phase.status)) && (u.phase.Releasing? ==> u.phase.status == t.phase.status)
            && (u.phase.Asking? <==> t.phase.status.AwaitingDecision? && r.pending.Some? && r.pending.value !in t.handled)
            && (u.phase.Asking? ==> u.phase.approval == r.pending.value && u.handled == t.handled + {r.pending.value})
            && (!u.phase.Releasing? && !u.phase.Asking? ==> u == t.(phase := Phase.Waiting))
  {
  }

  predicate Own(step: Step, k: nat) {
    step == Respond(k) || (step.Release? && step.k == k) || (step.Go? && step.k == k)
  }

  /** The prompt's run has ended and its cancel has been asked for. */
  predicate Over(w: World, k: nat) {
    k in w.tasks && k in w.runs && Ends(w.tasks[k], w.runs[k])
  }

  predicate Ends(t: Task, r: Managed) {
    Terminal(r.status) && r.cancelled && t.sent <= t.seen <= |r.events| && !t.phase.Starting?
  }

  lemma MoveIsCloser(v: State, k: nat, t: Task, r: Managed, saved: bool)
    requires Ends(t, r) && Next(k, t, saved).Go?
    ensures var move := Next(k, t, saved).move;
            && CanGo(t, r, move)
            && var u, q := TaskAfter(v, t, r, move), RunAfter(t, r, move);
               Ends(u, q) && Left(u, q) < Left(t, r) && u.id == t.id
  {
  }

  lemma NextIsCloser(w: World, k: nat, saved: bool)
    requires Over(w, k)
    ensures var step := Next(k, w.tasks[k], saved);
            var x := Apply(w, step);
            && Own(step, k) && Possible(w, step)
            && if step.Respond?
               then k !in x.tasks && x.v.outbound == w.v.outbound + [Reply(k, w.tasks[k].id, w.tasks[k].phase.outcome)]
               else Over(x, k) && Left(x.tasks[k], x.runs[k]) < Left(w.tasks[k], w.runs[k]) && x.tasks[k].id == w.tasks[k].id
  {
    if Next(k, w.tasks[k], saved).Go? {
      MoveIsCloser(w.v, k, w.tasks[k], w.runs[k], saved);
    }
  }

  predicate AllOwn(steps: seq<Step>, k: nat) {
    forall step | step in steps :: Own(step, k)
  }

  /** A response to request `k` with this id is the last message sent. */
  predicate JustAnswered(w: World, k: nat, id: string) {
    && w.v.outbound != []
    && var m := w.v.outbound[|w.v.outbound| - 1];
       m.Reply? && m.request == k && m.id == id
  }

  lemma FirstThen(w: World, step: Step, rest: seq<Step>, k: nat)
    ensures Run(w, [step] + rest) == Run(Apply(w, step), rest)
    ensures Own(step, k) && AllOwn(rest, k) ==> AllOwn([step] + rest, k)
  {
    assert ([step] + rest)[1..] == rest;
    assert forall s | s in [step] + rest :: s == step || s in rest;
  }

  /** Wherever it is, mid-batch or waiting for a permission nobody answers, a prompt whose run
    * ended by a cancel gets to its response by its own steps, saved or not. */
  lemma {:induction false} CancelledPromptsFinish(w: World, k: nat, saved: bool) returns (steps: seq<Step>)
    requires Over(w, k)
    ensures AllOwn(steps, k) && k !in Run(w, steps).tasks && JustAnswered(Run(w, steps), k, w.tasks[k].id)
    decreases Left(w.tasks[k], w.runs[k])
  {
    NextIsCloser(w, k, saved);
    var step := Next(k, w.tasks[k], saved);
    var rest: seq<Step> := [];
    if !step.Respond? {
      rest := CancelledPromptsFinish(Apply(w, step), k, saved);
    }
    FirstThen(w, step, rest, k);
    steps := [step] + rest;
  }

  lemma StartedTask(w: World, k: nat)
    requires Held(w) && Showing(w) && k in w.tasks && k in w.runs
    ensures w.tasks[k].sent <= w.tasks[k].seen <= |w.runs[k].events| && !w.tasks[k].phase.Starting?
  {
    assert TaskShows(w.tasks[k], w.runs[k], Shown(w.v.outbound, k));
  }

  /** The run's end after a cancel, if it has not ended yet. */
  function TheEnd(w: World, k: nat): Step
    requires k in w.runs
  {
    if Terminal(w.runs[k].status) then Cancel(k) else Change(k, WasCancelled, None)
  }

  lemma CancelEnds(w: World, k: nat)
    requires k in w.tasks && k in w.runs
    requires w.tasks[k].sent <= w.tasks[k].seen <= |w.runs[k].events| && !w.tasks[k].phase.Starting?
    ensures var x := Apply(Apply(w, Cancel(k)), TheEnd(w, k)); Over(x, k) && x.tasks == w.tasks
  {
  }

  /** In every reachable state a client can have that: it cancels the run of a prompt in
    * flight, the run ends, and the response follows. */
  lemma EveryPromptCanBeEnded(steps: seq<Step>, k: nat)
    requires k in Run(Begin(), steps).tasks && k in Run(Begin(), steps).runs
    ensures var w := Run(Begin(), steps);
            exists more :: k !in Run(w, more).tasks && JustAnswered(Run(w, more), k, w.tasks[k].id)
  {
    InvRun(Begin(), steps);
    ReachedCanEnd(Run(Begin(), steps), k);
  }

  lemma ReachedCanEnd(w: World, k: nat)
    requires Held(w) && Showing(w) && k in w.tasks && k in w.runs
    ensures exists more :: k !in Run(w, more).tasks && JustAnswered(Run(w, more), k, w.tasks[k].id)
  {
    StartedTask(w, k);
    CancelEnds(w, k);
    var x := Apply(w, Cancel(k));
    var rest := CancelledPromptsFinish(Apply(x, TheEnd(w, k)), k, true);
    FirstThen(x, TheEnd(w, k), rest, k);
    FirstThen(w, Cancel(k), [TheEnd(w, k)] + rest, k);
  }

  /** What happens around the server: a run emits and changes, it is cancelled, and other
    * processes take and free the run leases of sessions. */
  lemma WhatOthersDo(w: World, k: nat, event: Event, status: RunStatus, pending: Option<string>, s: string)
    requires k in w.runs && !Terminal(w.runs[k].status)
    ensures var r := w.runs[k];
            && Apply(w, Emit(k, event)) == w.(runs := w.runs[k := Managed(r.events + [event], r.status, r.pending, r.cancelled, r.decisions)])
            && Apply(w, Change(k, status, pending)) == w.(runs := w.runs[k := Managed(r.events, status, pending, r.cancelled, r.decisions)])
            && Apply(w, Cancel(k)) == w.(runs := w.runs[k := Managed(r.events, r.status, r.pending, true, r.decisions)])
            && (s in Apply(w, LeaseElsewhere(s)).elsewhere <==> s in w.elsewhere || !(s in w.v.sessions && w.v.sessions[s].lease))
            && s !in Apply(w, FreeElsewhere(s)).elsewhere
  {
  }

  // ---------------------------------------------------------------- permissions

  function Asked(w: World, k: nat): World {
    Apply(Apply(Apply(w, Go(k, Take)), Go(k, Register)), Go(k, Announce))
  }

  /** A task that has to ask puts a request to the client under the next number and parks, its
    * waiter registered before the client can see the request. */
  lemma AskingAsks(w: World, k: nat)
    requires k in w.tasks && k in w.runs && w.tasks[k].phase.Asking?
    ensures var x, n, approval := Asked(w, k), w.v.nextId, w.tasks[k].phase.approval;
            && x.v == w.v.(outbound := w.v.outbound + [Permission(k, n, approval)], waiters := w.v.waiters[n := k], nextId := n + 1)
            && x.tasks == w.tasks[k := w.tasks[k].(phase := Parked(approval, n, None))]
            && x == w.(v := x.v, tasks := x.tasks)
  {
    var w1 := Apply(w, Go(k, Take));
    assert w1.tasks[k].phase == Registering(w.tasks[k].phase.approval, w.v.nextId) && w1.runs == w.runs;
    var w2 := Apply(w1, Go(k, Register));
    assert w2.tasks[k].phase == Announcing(w.tasks[k].phase.approval, w.v.nextId, None) && w2.runs == w.runs;
    assert Asked(w, k).tasks == w.tasks[k := w.tasks[k].(phase := Parked(w.tasks[k].phase.approval, w.v.nextId, None))];
  }

  /** The client's answer reaches the run as it was given, and the task waits for it again. */
  lemma AnswerIsActedOn(w: World, k: nat, allowed: bool)
    requires w.reader.Idle? && k in w.tasks && k in w.runs && w.tasks[k].phase.Parked?
    requires var n := w.tasks[k].phase.permission; n in w.v.waiters && w.v.waiters[n] == k
    ensures var t := w.tasks[k];
            var n := t.phase.permission;
            var x := Apply(Apply(Apply(w, Deliver(n, allowed)), Go(k, Hear)), Go(k, Decide));
            && x.runs == w.runs[k := w.runs[k].(decisions := w.runs[k].decisions + [Decision(t.phase.approval, n, allowed)])]
            && x.tasks == w.tasks[k := t.(phase := Phase.Waiting)]
            && x.v == w.v.(waiters := w.v.waiters - {n}) && x.answers == w.answers[n := allowed]
  {
    var t, n := w.tasks[k], w.tasks[k].phase.permission;
    var w1 := Apply(w, Deliver(n, allowed));
    assert w1.tasks == w.tasks[k := t.(phase := Parked(t.phase.approval, n, Some(allowed)))] && w1.runs == w.runs;
    var w2 := Apply(w1, Go(k, Hear));
    assert w2.tasks == w.tasks[k := t.(phase := Deciding(t.phase.approval, n, allowed))] && w2.runs == w.runs;
    assert Apply(w2, Go(k, Decide)).tasks == w.tasks[k := t.(phase := Phase.Waiting)];
  }

  /** A cancelled run is told no, and the waiter goes; a later answer finds none. */
  lemma CancelIsANo(w: World, k: nat, allowed: bool)
    requires k in w.tasks && k in w.runs && w.tasks[k].phase.Parked? && w.runs[k].cancelled
    ensures var t := w.tasks[k];
            var n := t.phase.permission;
            var x := Apply(Apply(Apply(w, Go(k, Wake)), Go(k, Unregister)), Go(k, Decide));
            && x.runs == w.runs[k := w.runs[k].(decisions := w.runs[k].decisions + [Decision(t.phase.approval, n, false)])]
            && x.tasks == w.tasks[k := t.(phase := Phase.Waiting)]
            && x.v == w.v.(waiters := w.v.waiters - {n})
            && Apply(x, Deliver(n, allowed)) == x
  {
    var t, n := w.tasks[k], w.tasks[k].phase.permission;
    var w1 := Apply(w, Go(k, Wake));
    assert w1.tasks == w.tasks[k := t.(phase := Dropping(t.phase.approval, n))] && w1.runs == w.runs && w1.v == w.v;
    var w2 := Apply(w1, Go(k, Unregister));
    assert w2.tasks == w.tasks[k := t.(phase := Deciding(t.phase.approval, n, false))] && w2.runs == w.runs;
    assert Apply(w2, Go(k, Decide)).tasks == w.tasks[k := t.(phase := Phase.Waiting)];
  }

  /** What the reader is answering is answered in the end, after everything it replays. */
  lemma {:induction false} ReaderFinishes(w: World) returns (steps: seq<Step>)
    requires w.reader.Answering?
    ensures var x := Run(w, steps);
            && (forall step | step in steps :: step.Replay? || step.Answer?)
            && x.reader.Idle? && JustAnswered(x, w.reader.request, w.reader.id)
    decreases |w.reader.rest|
  {
    var step := if w.reader.rest == [] then Answer else Replay;
    var rest: seq<Step> := [];
    if w.reader.rest != [] {
      rest := ReaderFinishes(Apply(w, Replay));
    }
    FirstThen(w, step, rest, 0);
    steps := [step] + rest;
    assert forall s | s in steps :: s == step || s in rest;
  }
}
