/** Permission requests: every approval of a run is put to the client at most once, and
  * what the client answers reaches the one task that asked, however answers, cancels and
  * other prompts interleave.
  */
module AcpPermissions {
  import opened Wrappers
  import opened Runs
  import SessionData
  import opened AcpState
  import opened Acp

  /** The task holds the number of a permission request. */
  predicate Carries(p: Phase) {
    p.Registering? || p.Announcing? || p.Parked? || p.Dropping? || p.Deciding?
  }

  /** The task is waiting for the answer to `permission`, or just stopped because of a
    * cancel. */
  predicate Expects(p: Phase, permission: int) {
    (Listening(p) && p.permission == permission && p.answer.None?) || (p.Dropping? && p.permission == permission)
  }

  predicate Asks(m: Msg, k: nat, approval: string) {
    m.Permission? && m.request == k && m.approval == approval
  }

  /** The client has not been asked about this approval of this run. */
  predicate Unasked(out: seq<Msg>, k: nat, approval: string) {
    forall m | m in out :: !Asks(m, k, approval)
  }

  predicate Unused(out: seq<Msg>, permission: int) {
    forall m | m in out && m.Permission? :: m.permission != permission
  }

  // ---------------------------------------------------------------- what holds of a task

  predicate Numbers(k: nat, p: Phase, v: State, answers: map<int, bool>) {
    && (Carries(p) ==> p.permission < v.nextId)
    && (Listening(p) && p.answer.None? ==> p.permission in v.waiters && v.waiters[p.permission] == k)
    && (p.Registering? ==> p.permission !in answers)
    && (Listening(p) && p.answer.Some? ==> p.permission in answers && answers[p.permission] == p.answer.value)
    && (p.Deciding? && p.granted ==> p.permission in answers && answers[p.permission])
  }

  predicate Messages(k: nat, t: Task, out: seq<Msg>) {
    var p := t.phase;
    && (p.Registering? || p.Announcing? ==> Unused(out, p.permission))
    && (p.Asking? || p.Registering? || p.Announcing? ==> p.approval in t.handled && Unasked(out, k, p.approval))
    && (p.Parked? || p.Dropping? || p.Deciding? ==> Permission(k, p.permission, p.approval) in out)
  }

  predicate Handled(k: nat, t: Task, out: seq<Msg>) {
    forall m | m in out && m.Permission? && m.request == k :: m.approval in t.handled
  }

  predicate TaskAsks(k: nat, t: Task, v: State, answers: map<int, bool>) {
    Numbers(k, t.phase, v, answers) && Messages(k, t, v.outbound) && Handled(k, t, v.outbound)
  }

  // ---------------------------------------------------------------- what holds of all

  predicate TasksAsk(tasks: Tasks, v: State, answers: map<int, bool>) {
    forall k | k in tasks :: TaskAsks(k, tasks[k], v, answers)
  }

  predicate Apart(tasks: Tasks, j: nat, k: nat)
    requires j in tasks && k in tasks
  {
    Carries(tasks[j].phase) && Carries(tasks[k].phase) ==> tasks[j].phase.permission != tasks[k].phase.permission
  }

  predicate AllApart(tasks: Tasks) {
    forall j, k | j in tasks && k in tasks && j != k :: Apart(tasks, j, k)
  }

  predicate WaitersExpected(v: State, tasks: Tasks, answers: map<int, bool>) {
    forall id | id in v.waiters ::
      v.waiters[id] in tasks && Expects(tasks[v.waiters[id]].phase, id) && id !in answers
  }

  /** No two permission requests share a number, nor a run and an approval. */
  predicate Different(a: Msg, b: Msg) {
    a.Permission? && b.Permission? ==>
      a.permission != b.permission && (a.request == b.request ==> a.approval != b.approval)
  }

  predicate AskedOnce(out: seq<Msg>) {
    forall i, j | 0 <= i < j < |out| :: Different(out[i], out[j])
  }

  predicate Issued(v: State, started: set<nat>, answers: map<int, bool>) {
    && (forall m | m in v.outbound && m.Permission? :: m.permission < v.nextId && m.request in started)
    && (forall id | id in answers :: id < v.nextId)
  }

  /** The client was asked, and a grant is what it answered. */
  predicate Backed(k: nat, d: Decision, out: seq<Msg>, answers: map<int, bool>) {
    && Permission(k, d.permission, d.approval) in out
    && (d.granted ==> d.permission in answers && answers[d.permission])
  }

  predicate DecisionsBacked(k: nat, decisions: seq<Decision>, out: seq<Msg>, answers: map<int, bool>) {
    && (forall i | 0 <= i < |decisions| :: Backed(k, decisions[i], out, answers))
    && (forall i, j | 0 <= i < j < |decisions| :: decisions[i].permission != decisions[j].permission)
  }

  predicate RunsBacked(runs: map<nat, Managed>, out: seq<Msg>, answers: map<int, bool>) {
    forall k | k in runs :: DecisionsBacked(k, runs[k].decisions, out, answers)
  }

  /** A number a task still carries has not been decided on. */
  predicate Undecided(p: Phase, decisions: seq<Decision>) {
    Carries(p) ==> forall i | 0 <= i < |decisions| :: decisions[i].permission != p.permission
  }

  predicate CarriedUndecided(tasks: Tasks, runs: map<nat, Managed>) {
    forall k | k in tasks && k in runs :: Undecided(tasks[k].phase, runs[k].decisions)
  }

  predicate Permitted(w: World) {
    && TasksAsk(w.tasks, w.v, w.answers) && AllApart(w.tasks) && WaitersExpected(w.v, w.tasks, w.answers)
    && AskedOnce(w.v.outbound) && Issued(w.v, w.runs.Keys, w.answers)
    && RunsBacked(w.runs, w.v.outbound, w.answers) && CarriedUndecided(w.tasks, w.runs)
  }

  // ---------------------------------------------------------------- a move of one task

  /** What a move changes outside its own task. */
  ghost predicate Touches(v: State, x: State, k: nat, p: Phase) {
    && v.nextId <= x.nextId
    && (x.waiters == v.waiters || (Carries(p) && (x.waiters == v.waiters[p.permission := k] || x.waiters == v.waiters - {p.permission})))
    && (x.outbound == v.outbound
        || (|x.outbound| == |v.outbound| + 1 && v.outbound <= x.outbound
            && var m := x.outbound[|v.outbound|]; m.request == k && (m.Permission? ==> Carries(p) && m.permission == p.permission)))
  }

  lemma MoveTouches(v: State, k: nat, t: Task, r: Managed, move: Move)
    requires CanGo(t, r, move)
    ensures Touches(v, StateAfter(v, k, t, r, move), k, t.phase)
  {
  }

  lemma OthersKeep(v: State, x: State, k: nat, t: Task, j: nat, u: Task, answers: map<int, bool>)
    requires Touches(v, x, k, t.phase) && j != k && TaskAsks(j, u, v, answers)
    requires Carries(t.phase) && Carries(u.phase) ==> t.phase.permission != u.phase.permission
    ensures TaskAsks(j, u, x, answers)
  {
    if x.outbound != v.outbound {
      assert x.outbound == v.outbound + [x.outbound[|v.outbound|]];
    }
  }

  lemma TaskMoves(v: State, k: nat, t: Task, r: Managed, move: Move, answers: map<int, bool>)
    requires CanGo(t, r, move) && TaskAsks(k, t, v, answers)
    requires forall m | m in v.outbound && m.Permission? :: m.permission < v.nextId
    requires forall id | id in answers :: id < v.nextId
    ensures TaskAsks(k, TaskAfter(v, t, r, move), StateAfter(v, k, t, r, move), answers)
  {
  }

  lemma TasksAfterMove(w: World, k: nat, move: Move)
    requires Permitted(w) && k in w.tasks && k in w.runs && CanGo(w.tasks[k], w.runs[k], move)
    ensures var x := Gone(w, k, move); TasksAsk(x.tasks, x.v, x.answers)
  {
    var x := Gone(w, k, move);
    var t, r := w.tasks[k], w.runs[k];
    MoveTouches(w.v, k, t, r, move);
    forall j | j in x.tasks
      ensures TaskAsks(j, x.tasks[j], x.v, x.answers)
    {
      if j == k {
        TaskMoves(w.v, k, t, r, move, w.answers);
      } else {
        assert TaskAsks(j, w.tasks[j], w.v, w.answers) && Apart(w.tasks, k, j);
        OthersKeep(w.v, x.v, k, t, j, w.tasks[j], w.answers);
      }
    }
  }

  /** A move keeps the number its task carries, or takes the next one. */
  lemma NumberAfterMove(v: State, k: nat, t: Task, r: Managed, move: Move)
    requires CanGo(t, r, move)
    ensures var p, q := t.phase, TaskAfter(v, t, r, move).phase;
            && (Carries(p) && Carries(q) ==> q.permission == p.permission)
            && (!Carries(p) && Carries(q) ==> q.permission == v.nextId)
            && (Carries(q) ==> !move.Decide?)
  {
  }

  lemma ApartAfterMove(w: World, k: nat, move: Move)
    requires Permitted(w) && k in w.tasks && k in w.runs && CanGo(w.tasks[k], w.runs[k], move)
    ensures AllApart(Gone(w, k, move).tasks)
    ensures CarriedUndecided(Gone(w, k, move).tasks, Gone(w, k, move).runs)
  {
    var t, r := w.tasks[k], w.runs[k];
    NumberAfterMove(w.v, k, t, r, move);
    var u := TaskAfter(w.v, t, r, move);
    assert forall j | j in w.tasks :: TaskAsks(j, w.tasks[j], w.v, w.answers);
    assert forall j | j in w.tasks && j != k :: Apart(w.tasks, j, k);
    assert AllApart(w.tasks[k := u]);
    assert DecisionsBacked(k, r.decisions, w.v.outbound, w.answers);
    assert forall i | 0 <= i < |r.decisions| :: Backed(k, r.decisions[i], w.v.outbound, w.answers);
    assert Undecided(u.phase, RunAfter(t, r, move).decisions);
  }

  lemma WaitersAfterMove(w: World, k: nat, move: Move)
    requires Permitted(w) && k in w.tasks && k in w.runs && CanGo(w.tasks[k], w.runs[k], move)
    ensures var x := Gone(w, k, move); WaitersExpected(x.v, x.tasks, x.answers)
  {
    assert TaskAsks(k, w.tasks[k], w.v, w.answers);
  }

  lemma AskedAfterMove(w: World, k: nat, move: Move)
    requires Permitted(w) && k in w.tasks && k in w.runs && CanGo(w.tasks[k], w.runs[k], move)
    ensures var x := Gone(w, k, move); AskedOnce(x.v.outbound) && Issued(x.v, x.runs.Keys, x.answers)
  {
    var x := Gone(w, k, move);
    var t, r := w.tasks[k], w.runs[k];
    assert TaskAsks(k, t, w.v, w.answers);
    MoveSends(w.v, k, t, r, move);
    assert x.runs.Keys == w.runs.Keys;
    var out, n := w.v.outbound, |w.v.outbound|;
    forall i, j | 0 <= i < j < |x.v.outbound|
      ensures Different(x.v.outbound[i], x.v.outbound[j])
    {
      assert x.v.outbound[i] == out[i];
      if j < n {
        assert Different(out[i], out[j]);
      } else {
        assert out[i] in out;
      }
    }
  }

  lemma BackedAfterMove(w: World, k: nat, move: Move)
    requires Permitted(w) && k in w.tasks && k in w.runs && CanGo(w.tasks[k], w.runs[k], move)
    ensures var x := Gone(w, k, move); RunsBacked(x.runs, x.v.outbound, x.answers)
  {
    var x := Gone(w, k, move);
    var t, r := w.tasks[k], w.runs[k];
    assert TaskAsks(k, t, w.v, w.answers) && Undecided(t.phase, r.decisions);
    MoveTouches(w.v, k, t, r, move);
    assert forall m | m in w.v.outbound :: m in x.v.outbound;
    forall j | j in x.runs
      ensures DecisionsBacked(j, x.runs[j].decisions, x.v.outbound, x.answers)
    {
      assert DecisionsBacked(j, w.runs[j].decisions, w.v.outbound, w.answers);
      assert forall d | Backed(j, d, w.v.outbound, w.answers) :: Backed(j, d, x.v.outbound, x.answers);
    }
  }

  lemma GoPermits(w: World, k: nat, move: Move)
    requires Permitted(w) && k in w.tasks && k in w.runs && CanGo(w.tasks[k], w.runs[k], move)
    ensures Permitted(Gone(w, k, move))
  {
    TasksAfterMove(w, k, move);
    ApartAfterMove(w, k, move);
    WaitersAfterMove(w, k, move);
    AskedAfterMove(w, k, move);
    BackedAfterMove(w, k, move);
  }

  // ---------------------------------------------------------------- the other steps

  /** Neither asks nor decides. */
  predicate Plain(p: Phase) {
    !Carries(p) && !p.Asking?
  }

  ghost predicate CalmTasks(w: World, x: World) {
    && (forall k | k in x.tasks && k in w.tasks ::
          && x.tasks[k].handled == w.tasks[k].handled
          && (x.tasks[k].phase == w.tasks[k].phase || (Plain(x.tasks[k].phase) && !Carries(w.tasks[k].phase))))
    && (forall k | k in x.tasks && k !in w.tasks :: Plain(x.tasks[k].phase) && k !in w.runs)
    && (forall k | k in w.tasks && k !in x.tasks :: !Carries(w.tasks[k].phase))
  }

  ghost predicate CalmRuns(w: World, x: World) {
    && w.runs.Keys <= x.runs.Keys
    && (forall k | k in x.runs :: x.runs[k].decisions == if k in w.runs then w.runs[k].decisions else [])
  }

  /** A step away from permissions: it may send one other message. */
  ghost predicate Calm(w: World, x: World) {
    && x.v.waiters == w.v.waiters && x.v.nextId == w.v.nextId && x.answers == w.answers
    && (x.v.outbound == w.v.outbound
        || (|x.v.outbound| == |w.v.outbound| + 1 && w.v.outbound <= x.v.outbound && !x.v.outbound[|w.v.outbound|].Permission?))
    && CalmTasks(w, x) && CalmRuns(w, x)
  }

  lemma CalmAsks(w: World, x: World)
    requires Calm(w, x)
    ensures forall m: Msg | m.Permission? :: m in x.v.outbound <==> m in w.v.outbound
    ensures AskedOnce(w.v.outbound) ==> AskedOnce(x.v.outbound)
  {
    var out, n := w.v.outbound, |w.v.outbound|;
    if x.v.outbound != out {
      assert x.v.outbound == out + [x.v.outbound[n]];
    }
    if AskedOnce(out) {
      forall i, j | 0 <= i < j < |x.v.outbound|
        ensures Different(x.v.outbound[i], x.v.outbound[j])
      {
        assert x.v.outbound[i] == out[i];
        if j < n {
          assert Different(out[i], out[j]);
        }
      }
    }
  }

  lemma CalmTasksAsk(w: World, x: World)
    requires Permitted(w) && Calm(w, x)
    ensures TasksAsk(x.tasks, x.v, x.answers)
  {
    CalmAsks(w, x);
    forall k | k in x.tasks
      ensures TaskAsks(k, x.tasks[k], x.v, x.answers)
    {
      if k in w.tasks {
        assert TaskAsks(k, w.tasks[k], w.v, w.answers);
      } else {
        assert forall m | m in w.v.outbound && m.Permission? :: m.request in w.runs.Keys;
      }
    }
  }

  lemma CalmPermits(w: World, x: World)
    requires Permitted(w) && Calm(w, x)
    ensures Permitted(x)
  {
    CalmAsks(w, x);
    CalmTasksAsk(w, x);
    assert AllApart(x.tasks) by {
      forall j, k | j in x.tasks && k in x.tasks && j != k
        ensures Apart(x.tasks, j, k)
      {
        if Carries(x.tasks[j].phase) && Carries(x.tasks[k].phase) {
          assert Apart(w.tasks, j, k);
        }
      }
    }
    forall k | k in x.runs
      ensures DecisionsBacked(k, x.runs[k].decisions, x.v.outbound, x.answers)
    {
      if k in w.runs {
        assert DecisionsBacked(k, w.runs[k].decisions, w.v.outbound, w.answers);
        assert forall i | 0 <= i < |w.runs[k].decisions| :: Backed(k, w.runs[k].decisions[i], w.v.outbound, w.answers);
      }
    }
  }

  lemma ReplyingCalm(w: World, m: Inbound, v: State, rest: seq<SessionData.Message>, outcome: Outcome)
    requires v.waiters == w.v.waiters && v.nextId == w.v.nextId && v.outbound == w.v.outbound
    ensures Calm(w, Replying(w, v, m, rest, outcome))
  {
  }

  lemma BegunCalm(w: World, m: Inbound, s: string, t: Task)
    requires s in w.v.sessions && Plain(t.phase) && |w.received| !in w.tasks && |w.received| !in w.runs
    ensures Calm(w, w.(v := Begun(w.v, s), received := w.received + [m], owner := w.owner[s := |w.received|],
                       tasks := w.tasks[|w.received| := t]))
  {
  }

  lemma PromptingCalm(w: World, m: Inbound)
    requires Held(w) && m.id.Some? && m.call.Prompt?
    ensures Calm(w, Prompting(w, m))
  {
    var s := m.call.into;
    var refusal := Refused(w.v, s, m.call.free && (s.None? || s.value !in w.elsewhere), m.call.saved);
    if refusal.Some? {
      ReplyingCalm(w, m, w.v, [], Outcome.Failed(refusal.value));
    } else {
      NumbersAfterReceive(w.received, m, w.tasks, w.runs.Keys);
      BegunCalm(w, m, s.value, Task(m.id.value, s.value, Starting, 0, 0, StopReason.EndTurn, {}));
    }
  }

  lemma ReceiveCalm(w: World, m: Inbound)
    requires Held(w)
    ensures Calm(w, Dispatched(w, m))
  {
    if m.call.CancelPrompt? {
      assert Calm(w, Stopping(w, m.call.target));
    } else if m.id.None? {
    } else if m.call.Prompt? {
      PromptingCalm(w, m);
    } else {
      var (v, rest, outcome) := Response(w.v, m);
      ResponseSends(w.v, m);
      ReplyingCalm(w, m, v, rest, outcome);
    }
  }

  lemma StartCalm(w: World, k: nat)
    requires Held(w) && k in w.tasks && w.tasks[k].phase.Starting?
    ensures Calm(w, Started(w, k))
  {
  }

  lemma ReleaseCalm(w: World, k: nat, saved: bool)
    requires k in w.tasks && w.tasks[k].phase.Releasing?
    ensures Calm(w, GivenUp(w, k, saved))
  {
  }

  lemma RunCalm(w: World, k: nat, r: Managed)
    requires k in w.runs && r.decisions == w.runs[k].decisions
    ensures Calm(w, w.(runs := w.runs[k := r]))
  {
  }

  lemma QuietCalm(w: World, step: Step)
    requires Held(w) && Possible(w, step) && !step.Receive? && !step.Deliver? && !step.Go?
    ensures Calm(w, Apply(w, step))
  {
    match step {
      case Start(k) => StartCalm(w, k);
      case Release(k, saved) => ReleaseCalm(w, k, saved);
      case Emit(k, event) => RunCalm(w, k, w.runs[k].(events := w.runs[k].events + [event]));
      case Change(k, status, pending) => RunCalm(w, k, w.runs[k].(status := status, pending := pending));
      case Cancel(k) => RunCalm(w, k, w.runs[k].(cancelled := true));
      case _ =>
    }
  }

  // ---------------------------------------------------------------- answers

  lemma DeliverAsks(w: World, permission: int, allowed: bool)
    requires Permitted(w) && permission in w.v.waiters
    ensures var x := Heard(w, permission, allowed); TasksAsk(x.tasks, x.v, x.answers)
  {
    var x := Heard(w, permission, allowed);
    var k := w.v.waiters[permission];
    AnswerHeard(w.tasks[k], permission, allowed);
    forall j | j in x.tasks
      ensures TaskAsks(j, x.tasks[j], x.v, x.answers)
    {
      assert TaskAsks(j, w.tasks[j], w.v, w.answers);
      if j != k {
        assert Apart(w.tasks, j, k);
      }
    }
  }

  lemma DeliverPermits(w: World, permission: int, allowed: bool)
    requires Permitted(w)
    ensures Permitted(Heard(w, permission, allowed))
  {
    if permission in w.v.waiters {
      var x := Heard(w, permission, allowed);
      var k := w.v.waiters[permission];
      DeliverAsks(w, permission, allowed);
      AnswerHeard(w.tasks[k], permission, allowed);
      assert TaskAsks(k, w.tasks[k], w.v, w.answers);
      forall j | j in x.tasks && j != k
        ensures Apart(x.tasks, j, k)
      {
        assert Apart(w.tasks, j, k);
      }
      forall j | j in x.runs
        ensures DecisionsBacked(j, x.runs[j].decisions, x.v.outbound, x.answers)
      {
        assert DecisionsBacked(j, w.runs[j].decisions, w.v.outbound, w.answers);
        assert forall d | Backed(j, d, w.v.outbound, w.answers) :: Backed(j, d, x.v.outbound, x.answers);
      }
    }
  }

  lemma PermittedStep(w: World, step: Step)
    requires Held(w) && Permitted(w)
    ensures Permitted(Apply(w, step))
  {
    if Possible(w, step) {
      match step {
        case Receive(m) =>
          ReceiveCalm(w, m);
          CalmPermits(w, Dispatched(w, m));
        case Deliver(permission, allowed) => DeliverPermits(w, permission, allowed);
        case Go(k, move) => GoPermits(w, k, move);
        case _ =>
          QuietCalm(w, step);
          CalmPermits(w, Apply(w, step));
      }
    }
  }

  // ---------------------------------------------------------------- every run of the server

  lemma {:induction false} PermittedRun(w: World, steps: seq<Step>)
    requires Held(w) && Permitted(w)
    ensures Held(Run(w, steps)) && Permitted(Run(w, steps))
    decreases |steps|
  {
    if steps != [] {
      HeldStep(w, steps[0]);
      PermittedStep(w, steps[0]);
      PermittedRun(Apply(w, steps[0]), steps[1..]);
    }
  }

  /** Every permission request has a number of its own, and no approval of a run is asked
    * about twice. */
  lemma EachApprovalIsAskedOnce(steps: seq<Step>, i: nat, j: nat)
    ensures var out := Run(Begin(), steps).v.outbound;
            i < j < |out| ==> Different(out[i], out[j])
  {
    PermittedRun(Begin(), steps);
  }

  /** The next number to be issued has never been used. */
  lemma NumbersAreFresh(steps: seq<Step>)
    ensures var w := Run(Begin(), steps);
            && Unused(w.v.outbound, w.v.nextId) && w.v.nextId !in w.v.waiters && w.v.nextId !in w.answers
            && forall k | k in w.tasks && Carries(w.tasks[k].phase) :: w.tasks[k].phase.permission != w.v.nextId
  {
    PermittedRun(Begin(), steps);
    var w := Run(Begin(), steps);
    assert forall k | k in w.tasks :: TaskAsks(k, w.tasks[k], w.v, w.answers);
  }

  /** A run is told of each approval at most once, only after the client was asked about it,
    * and it is told to go ahead only if the client's answer to that very request allowed it. */
  lemma GrantsAreTheClients(steps: seq<Step>, k: nat, i: nat, j: nat)
    ensures var w := Run(Begin(), steps);
            k in w.runs && i < |w.runs[k].decisions| ==>
              && Backed(k, w.runs[k].decisions[i], w.v.outbound, w.answers)
              && (j < i ==> w.runs[k].decisions[j].approval != w.runs[k].decisions[i].approval)
  {
    PermittedRun(Begin(), steps);
    var w := Run(Begin(), steps);
    if k in w.runs && i < |w.runs[k].decisions| {
      var ds, out := w.runs[k].decisions, w.v.outbound;
      assert DecisionsBacked(k, ds, out, w.answers);
      assert Backed(k, ds[i], out, w.answers);
      if j < i {
        assert Backed(k, ds[j], out, w.answers);
        SameApprovalSameNumber(out, k, ds[i], ds[j]);
      }
    }
  }

  lemma SameApprovalSameNumber(out: seq<Msg>, k: nat, d: Decision, e: Decision)
    requires AskedOnce(out)
    requires Permission(k, d.permission, d.approval) in out && Permission(k, e.permission, e.approval) in out
    ensures d.approval == e.approval ==> d.permission == e.permission
  {
    var a :| 0 <= a < |out| && out[a] == Permission(k, d.permission, d.approval);
    var b :| 0 <= b < |out| && out[b] == Permission(k, e.permission, e.approval);
    if a < b {
      assert Different(out[a], out[b]);
    } else if b < a {
      assert Different(out[b], out[a]);
    }
  }

  /** Waiters and the tasks that carry their numbers are in step. */
  ghost predicate WaitersInStep(w: World, permission: int) {
    && (permission in w.v.waiters ==>
          && w.v.waiters[permission] in w.tasks && permission !in w.answers
          && Expects(w.tasks[w.v.waiters[permission]].phase, permission))
    && (forall k | k in w.tasks && Listening(w.tasks[k].phase) && w.tasks[k].phase.permission == permission ::
          permission in w.v.waiters <==> w.tasks[k].phase.answer.None?)
    && (forall k | k in w.tasks && w.tasks[k].phase.Deciding? && w.tasks[k].phase.permission == permission ::
          permission !in w.v.waiters)
  }

  lemma CarriersWait(w: World, permission: int, k: nat)
    requires Permitted(w) && permission in w.v.waiters && k in w.tasks
    requires Carries(w.tasks[k].phase) && w.tasks[k].phase.permission == permission
    ensures k == w.v.waiters[permission]
  {
    assert k == w.v.waiters[permission] || Apart(w.tasks, k, w.v.waiters[permission]);
  }

  /** A waiter is there exactly while its task expects that answer and has none: it is gone
    * once the answer came, and once the task has dealt with a cancel. */
  lemma NoWaiterSurvives(steps: seq<Step>, permission: int)
    ensures WaitersInStep(Run(Begin(), steps), permission)
  {
    PermittedRun(Begin(), steps);
    var w := Run(Begin(), steps);
    forall k | k in w.tasks
      ensures TaskAsks(k, w.tasks[k], w.v, w.answers)
      ensures permission in w.v.waiters && Carries(w.tasks[k].phase) && w.tasks[k].phase.permission == permission
              ==> k == w.v.waiters[permission]
    {
      if permission in w.v.waiters && Carries(w.tasks[k].phase) && w.tasks[k].phase.permission == permission {
        CarriersWait(w, permission, k);
      }
    }
  }

  ghost predicate ReachesItsOwn(w: World, x: World, permission: int, allowed: bool)
    requires permission in w.v.waiters
  {
    var k := w.v.waiters[permission];
    && k in w.tasks && permission !in x.v.waiters && x.runs == w.runs
    && x.v.waiters == w.v.waiters - {permission}
    && (forall j | j in w.tasks && j != k :: j in x.tasks && x.tasks[j] == w.tasks[j])
    && k in x.tasks
    && (if w.tasks[k].phase.Dropping? then x.tasks[k] == w.tasks[k]
        else Listening(x.tasks[k].phase) && x.tasks[k].phase.permission == permission
             && x.tasks[k].phase.answer == Some(allowed))
  }

  lemma DeliverReaches(w: World, permission: int, allowed: bool)
    requires WaitersExpected(w.v, w.tasks, w.answers) && permission in w.v.waiters
    ensures ReachesItsOwn(w, Heard(w, permission, allowed), permission, allowed)
  {
    AnswerHeard(w.tasks[w.v.waiters[permission]], permission, allowed);
  }

  /** An answer reaches the task that asked and no other; an answer nobody waits for, such
    * as a second one or one after a cancel was dealt with, changes nothing. */
  lemma AnswersReachTheirOwnTask(steps: seq<Step>, permission: int, allowed: bool)
    ensures var w := Run(Begin(), steps);
            var x := Heard(w, permission, allowed);
            if permission in w.v.waiters then ReachesItsOwn(w, x, permission, allowed) else x == w
  {
    PermittedRun(Begin(), steps);
    var w := Run(Begin(), steps);
    if permission in w.v.waiters {
      DeliverReaches(w, permission, allowed);
    }
  }
}
