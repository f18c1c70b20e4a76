/** The editor protocol: one reader that dispatches inbound messages, a task for every
  * prompt in flight, the runs they follow, and other processes taking run leases.
  *
  * A request is named by its place among the messages received, so that clients which
  * reuse ids are covered; the id itself is carried along. A reader step ends at the first
  * message it sends, and each message it sends is a step of its own.
  */
module Acp {
  import opened Wrappers
  import opened Runs
  import SessionData
  import opened AcpState

  // ---------------------------------------------------------------- what comes in

  /** `free` and `saved` say how taking the run lease and saving the prompt turn out. */
  datatype Call =
    | Initialize
    | Authenticate
    | NewSession(session: string, store: Store)
    | LoadSession(session: string, found: Found)
    | CancelPrompt(target: Option<string>)
    | Prompt(into: Option<string>, free: bool, saved: bool)
    | UnknownMethod

  datatype Inbound = Inbound(id: Option<string>, call: Call)

  /** A request that is owed a response: it carries an id, and is not a cancel. */
  predicate Due(m: Inbound) {
    m.id.Some? && !m.call.CancelPrompt?
  }

  // ---------------------------------------------------------------- the world

  /** Where a prompt task is. `Announcing` and `Parked` hold the receiving end of the
    * answer to permission request `permission`. */
  datatype Phase =
    | Starting
    | Waiting
    | Sending(status: RunStatus)
    | Asking(approval: string)
    | Registering(approval: string, permission: int)
    | Announcing(approval: string, permission: int, answer: Option<bool>)
    | Parked(approval: string, permission: int, answer: Option<bool>)
    | Dropping(approval: string, permission: int)
    | Deciding(approval: string, permission: int, granted: bool)
    | Releasing(status: RunStatus)
    | Responding(outcome: Outcome)

  /** `seen` events of the run are read, `sent` of them forwarded. */
  datatype Task = Task(id: string, session: string, phase: Phase, seen: nat, sent: nat, reason: StopReason, handled: set<string>)

  datatype Decision = Decision(approval: string, permission: int, granted: bool)

  datatype Managed = Managed(events: seq<Event>, status: RunStatus, pending: Option<string>, cancelled: bool, decisions: seq<Decision>)

  /** The reader between messages, or with updates and a response left to send. */
  datatype Reader = Idle | Answering(request: nat, id: string, rest: seq<SessionData.Message>, outcome: Outcome)

  /** `owner` and `answers` are history: the prompt each busy session is busy with, and
    * the client's first answer to each permission request that was waited for.
    * `elsewhere` are the sessions whose run lease another process holds. */
  datatype World = World(
    v: State, reader: Reader, received: seq<Inbound>, tasks: map<nat, Task>, runs: map<nat, Managed>,
    elsewhere: set<string>, owner: map<string, nat>, answers: map<int, bool>)

  /** What prompt task `k` does between its run's start and the end of its loop. */
  datatype Move = Read | Forward | Proceed | Take | Register | Announce | Hear | Wake | Unregister | Decide

  datatype Step =
    | Receive(m: Inbound) | Replay | Answer | Deliver(permission: int, allowed: bool)
    | Start(k: nat) | Go(k: nat, move: Move) | Release(k: nat, saved: bool) | Respond(k: nat)
    | Emit(k: nat, event: Event) | Change(k: nat, status: RunStatus, pending: Option<string>) | Cancel(k: nat)
    | LeaseElsewhere(session: string) | FreeElsewhere(session: string)

  function Begin(): World {
    World(State(map[], map[], 1, []), Idle, [], map[], map[], {}, map[], map[])
  }

  // ---------------------------------------------------------------- the reader

  function Replying(w: World, v: State, m: Inbound, rest: seq<SessionData.Message>, outcome: Outcome): World {
    var x := w.(v := v, received := w.received + [m]);
    if m.id.Some? then x.(reader := Answering(|w.received|, m.id.value, rest, outcome)) else x
  }

  function Transcript(m: Inbound): seq<SessionData.Message> {
    if m.call.LoadSession? && m.call.found.Loaded? then m.call.found.messages else []
  }

  function Stopping(w: World, session: Option<string>): World {
    if session.None? || session.value !in w.v.sessions || w.v.sessions[session.value].active.None? then w
    else
      var k := w.v.sessions[session.value].active.value;
      if k in w.runs then w.(runs := w.runs[k := w.runs[k].(cancelled := true)]) else w
  }

  function Prompting(w: World, m: Inbound): World
    requires m.id.Some? && m.call.Prompt?
  {
    var s := m.call.into;
    var refusal := Refused(w.v, s, m.call.free && (s.None? || s.value !in w.elsewhere), m.call.saved);
    if refusal.Some? then Replying(w, w.v, m, [], Outcome.Failed(refusal.value))
    else
      var k := |w.received|;
      w.(v := Begun(w.v, s.value), received := w.received + [m], owner := w.owner[s.value := k],
         tasks := w.tasks[k := Task(m.id.value, s.value, Starting, 0, 0, StopReason.EndTurn, {})])
  }

  /** What a call other than a prompt or a cancel does to the sessions, the messages it
    * replays, and its outcome. */
  function Response(v: State, m: Inbound): (State, seq<SessionData.Message>, Outcome) {
    match m.call
    case NewSession(session, store) => (Opened(v, session, store), [], NewOutcome(store))
    case LoadSession(session, found) =>
      var outcome := LoadOutcome(v, session, found);
      (Reopened(v, session, found), if outcome.Done? then Transcript(m) else [], outcome)
    case UnknownMethod => (v, [], Outcome.Failed(NO_METHOD))
    case _ => (v, [], Done)
  }

  function Dispatched(w: World, m: Inbound): World {
    if m.call.CancelPrompt? then Stopping(w, m.call.target).(received := w.received + [m])
    else if m.id.None? then w.(received := w.received + [m])
    else if m.call.Prompt? then Prompting(w, m)
    else
      var (v, rest, outcome) := Response(w.v, m);
      Replying(w, v, m, rest, outcome)
  }

  /** Replays one saved message; those of other roles are skipped. */
  function OneReplayed(w: World): World
    requires w.reader.Answering? && w.reader.rest != []
  {
    var m := w.reader.rest[0];
    w.(reader := w.reader.(rest := w.reader.rest[1..]),
       v := if m.role.OtherRole? then w.v else Sent(w.v, Update(w.reader.request, Replayed(m))))
  }

  /** The task holds the receiving end of an answer. */
  predicate Listening(p: Phase) {
    p.Announcing? || p.Parked?
  }

  /** A task that waits for the answer to `permission` has it now; any other has not. */
  function Answered(t: Task, permission: int, allowed: bool): Task {
    match t.phase
    case Announcing(a, p, _) => if p == permission then t.(phase := Announcing(a, p, Some(allowed))) else t
    case Parked(a, p, _) => if p == permission then t.(phase := Parked(a, p, Some(allowed))) else t
    case _ => t
  }

  /** Hands an answer to the task that waits for it; a task that stopped waiting loses it. */
  function Heard(w: World, permission: int, allowed: bool): World {
    if permission !in w.v.waiters then w
    else
      var k := w.v.waiters[permission];
      w.(v := Unawaited(w.v, permission), answers := w.answers[permission := allowed],
         tasks := if k in w.tasks then w.tasks[k := Answered(w.tasks[k], permission, allowed)] else w.tasks)
  }

  // ---------------------------------------------------------------- the tasks

  function At(w: World, k: nat, phase: Phase): World
    requires k in w.tasks
  {
    w.(tasks := w.tasks[k := w.tasks[k].(phase := phase)])
  }

  function Started(w: World, k: nat): World
    requires k in w.tasks
  {
    At(w.(runs := w.runs[k := Managed([], Running, None, false, [])], v := Activated(w.v, w.tasks[k].session, k)), k, Waiting)
  }

  predicate CanGo(t: Task, r: Managed, move: Move) {
    match move
    case Read => t.phase.Waiting? && (t.seen < |r.events| || Terminal(r.status))
    case Forward => t.phase.Sending? && t.sent < t.seen <= |r.events|
    case Proceed => t.phase.Sending? && t.sent >= t.seen
    case Take => t.phase.Asking?
    case Register => t.phase.Registering?
    case Announce => t.phase.Announcing?
    case Hear => t.phase.Parked? && t.phase.answer.Some?
    case Wake => t.phase.Parked? && r.cancelled
    case Unregister => t.phase.Dropping?
    case Decide => t.phase.Deciding?
  }

  /** What the task does with a batch it has forwarded. An approval is asked for once. */
  function Proceeded(t: Task, r: Managed): Task
    requires t.phase.Sending?
  {
    if Terminal(t.phase.status) then t.(phase := Releasing(t.phase.status))
    else if t.phase.status.AwaitingDecision? && r.pending.Some? && r.pending.value !in t.handled then
      t.(phase := Asking(r.pending.value), handled := t.handled + {r.pending.value})
    else t.(phase := Waiting)
  }

  function TaskAfter(v: State, t: Task, r: Managed, move: Move): Task
    requires CanGo(t, r, move)
  {
    match move
    case Read => t.(phase := Sending(r.status), seen := |r.events|)
    case Forward =>
      var e := r.events[t.sent];
      t.(sent := t.sent + 1, reason := if e.RunCompleted? then e.reason else t.reason)
    case Proceed => Proceeded(t, r)
    case Take => t.(phase := Registering(t.phase.approval, v.nextId))
    case Register => t.(phase := Announcing(t.phase.approval, t.phase.permission, None))
    case Announce => t.(phase := Parked(t.phase.approval, t.phase.permission, t.phase.answer))
    case Hear => t.(phase := Deciding(t.phase.approval, t.phase.permission, t.phase.answer.value))
    case Wake => t.(phase := Dropping(t.phase.approval, t.phase.permission))
    case Unregister => t.(phase := Deciding(t.phase.approval, t.phase.permission, false))
    case Decide => t.(phase := Waiting)
  }

  function StateAfter(v: State, k: nat, t: Task, r: Managed, move: Move): State
    requires CanGo(t, r, move)
  {
    match move
    case Forward => if Visible(r.events[t.sent]) then Sent(v, Update(k, Live(r.events[t.sent]))) else v
    case Take => v.(nextId := v.nextId + 1)
    case Register => Awaiting(v, t.phase.permission, k)
    case Announce => Sent(v, Permission(k, t.phase.permission, t.phase.approval))
    case Unregister => Unawaited(v, t.phase.permission)
    case _ => v
  }

  function RunAfter(t: Task, r: Managed, move: Move): Managed
    requires CanGo(t, r, move)
  {
    if move.Decide? then r.(decisions := r.decisions + [Decision(t.phase.approval, t.phase.permission, t.phase.granted)]) else r
  }

  function Gone(w: World, k: nat, move: Move): World
    requires k in w.tasks && k in w.runs && CanGo(w.tasks[k], w.runs[k], move)
  {
    var t, r := w.tasks[k], w.runs[k];
    w.(v := StateAfter(w.v, k, t, r, move), tasks := w.tasks[k := TaskAfter(w.v, t, r, move)],
       runs := w.runs[k := RunAfter(t, r, move)])
  }

  function GivenUp(w: World, k: nat, saved: bool): World
    requires k in w.tasks && w.tasks[k].phase.Releasing?
  {
    var t := w.tasks[k];
    var failed := t.session in w.v.sessions && w.v.sessions[t.session].stored && !saved;
    var outcome := if failed then Outcome.Failed(INTERNAL) else Stopped(Ending(t.phase.status, t.reason));
    At(w.(v := Released(w.v, t.session), owner := w.owner - {t.session}), k, Responding(outcome))
  }

  // ---------------------------------------------------------------- steps

  predicate Possible(w: World, step: Step) {
    match step
    // The ids of new sessions are new.
    case Receive(m) => w.reader.Idle? && (m.call.NewSession? ==> m.call.session !in w.v.sessions)
    case Replay => w.reader.Answering? && w.reader.rest != []
    case Answer => w.reader.Answering? && w.reader.rest == []
    case Deliver(_, _) => w.reader.Idle?
    case Start(k) => k in w.tasks && w.tasks[k].phase.Starting?
    case Go(k, move) => k in w.tasks && k in w.runs && CanGo(w.tasks[k], w.runs[k], move)
    case Release(k, _) => k in w.tasks && w.tasks[k].phase.Releasing?
    case Respond(k) => k in w.tasks && w.tasks[k].phase.Responding?
    case Emit(k, _) => k in w.runs && !Terminal(w.runs[k].status)
    case Change(k, _, _) => k in w.runs && !Terminal(w.runs[k].status)
    case Cancel(k) => k in w.runs
    case LeaseElsewhere(s) => !(s in w.v.sessions && w.v.sessions[s].lease)
    case FreeElsewhere(s) => true
  }

  function Apply(w: World, step: Step): World {
    if !Possible(w, step) then w else
    match step
    case Receive(m) => Dispatched(w, m)
    case Replay => OneReplayed(w)
    case Answer => w.(reader := Idle, v := Sent(w.v, Reply(w.reader.request, w.reader.id, w.reader.outcome)))
    case Deliver(permission, allowed) => Heard(w, permission, allowed)
    case Start(k) => Started(w, k)
    case Go(k, move) => Gone(w, k, move)
    case Release(k, saved) => GivenUp(w, k, saved)
    case Respond(k) =>
      w.(tasks := w.tasks - {k}, v := Sent(w.v, Reply(k, w.tasks[k].id, w.tasks[k].phase.outcome)))
    case Emit(k, event) => w.(runs := w.runs[k := w.runs[k].(events := w.runs[k].events + [event])])
    case Change(k, status, pending) => w.(runs := w.runs[k := w.runs[k].(status := status, pending := pending)])
    case Cancel(k) => w.(runs := w.runs[k := w.runs[k].(cancelled := true)])
    case LeaseElsewhere(s) => w.(elsewhere := w.elsewhere + {s})
    case FreeElsewhere(s) => w.(elsewhere := w.elsewhere - {s})
  }

  function Run(w: World, steps: seq<Step>): World
    decreases |steps|
  {
    if steps == [] then w else Run(Apply(w, steps[0]), steps[1..])
  }

  // ---------------------------------------------------------------- sessions and leases

  type Sessions = map<string, Open>
  type Tasks = map<nat, Task>

  /** Prompt `k` has its session: it is in flight and has not given the session up. */
  predicate Owns(tasks: Tasks, k: nat) {
    k in tasks && !tasks[k].phase.Responding?
  }

  predicate OwnerIs(owner: map<string, nat>, s: string, k: nat) {
    s in owner && owner[s] == k
  }

  /** A busy session has one owner, and an owner has its session. */
  ghost predicate OwnersMatch(sessions: Sessions, tasks: Tasks, owner: map<string, nat>) {
    && (forall s :: s in owner <==> s in sessions && sessions[s].busy)
    && (forall s | s in owner :: Owns(tasks, owner[s]) && tasks[owner[s]].session == s)
    && (forall k | Owns(tasks, k) :: OwnerIs(owner, tasks[k].session, k))
  }

  /** The lease is held exactly by a busy stored session, and by nobody else then; a cancel
    * would reach exactly the owner's run. */
  predicate HeldRight(o: Open, s: string, owner: map<string, nat>, started: set<nat>, elsewhere: set<string>) {
    && (o.lease <==> o.busy && o.stored)
    && (o.lease ==> s !in elsewhere)
    && o.active == (if s in owner && owner[s] in started then Some(owner[s]) else None)
  }

  predicate SessionsHeld(sessions: Sessions, owner: map<string, nat>, started: set<nat>, elsewhere: set<string>) {
    forall s | s in sessions :: HeldRight(sessions[s], s, owner, started, elsewhere)
  }

  /** Every number is the place of the message it should be. */
  predicate TasksNumbered(received: seq<Inbound>, tasks: Tasks, started: set<nat>) {
    && (forall k | k in tasks :: k < |received| && received[k].call.Prompt? && received[k].id == Some(tasks[k].id))
    && (forall k | k in started :: k < |received| && received[k].call.Prompt?)
    && (forall k | k in tasks :: k in started <==> !tasks[k].phase.Starting?)
  }

  predicate ReaderNumbered(received: seq<Inbound>, tasks: Tasks, started: set<nat>, reader: Reader) {
    reader.Answering? ==>
      && reader.request < |received| && received[reader.request].id == Some(reader.id)
      && reader.request !in tasks && reader.request !in started
      && !received[reader.request].call.CancelPrompt?
  }

  ghost predicate Held(w: World) {
    && TasksNumbered(w.received, w.tasks, w.runs.Keys)
    && ReaderNumbered(w.received, w.tasks, w.runs.Keys, w.reader)
    && OwnersMatch(w.v.sessions, w.tasks, w.owner)
    && SessionsHeld(w.v.sessions, w.owner, w.runs.Keys, w.elsewhere)
  }

  /** Steps that leave every session and every task's hold on one as it was. */
  predicate Quiet(step: Step) {
    step.Replay? || step.Answer? || step.Deliver? || step.Go? || step.Respond? || step.Emit? || step.Change? || step.Cancel?
    || step.FreeElsewhere?
  }

  ghost predicate SameHolds(w: World, x: World) {
    && x.v.sessions == w.v.sessions && x.owner == w.owner && x.elsewhere <= w.elsewhere && x.received == w.received
    && x.runs.Keys == w.runs.Keys
    && (forall k :: Owns(x.tasks, k) <==> Owns(w.tasks, k))
    && (forall k | k in x.tasks :: k in w.tasks && x.tasks[k].session == w.tasks[k].session && x.tasks[k].id == w.tasks[k].id
          && (x.tasks[k].phase.Starting? <==> w.tasks[k].phase.Starting?))
    && (x.reader.Idle? || (w.reader.Answering? && x.reader.request == w.reader.request && x.reader.id == w.reader.id))
  }

  lemma MoveStaysInside(v: State, k: nat, t: Task, r: Managed, move: Move)
    requires CanGo(t, r, move)
    ensures var u := TaskAfter(v, t, r, move);
            && u.session == t.session && u.id == t.id && !t.phase.Starting? && !t.phase.Responding? && !t.phase.Releasing?
            && !u.phase.Starting? && !u.phase.Responding?
    ensures StateAfter(v, k, t, r, move).sessions == v.sessions
    ensures var q := RunAfter(t, r, move); q.events == r.events && q.status == r.status
  {
  }

  lemma MoveHolds(w: World, k: nat, move: Move)
    requires Possible(w, Go(k, move))
    ensures SameHolds(w, Apply(w, Go(k, move)))
  {
    MoveStaysInside(w.v, k, w.tasks[k], w.runs[k], move);
    var x := Apply(w, Go(k, move));
    assert x.runs.Keys == w.runs.Keys;
  }

  lemma AnswerHeard(t: Task, permission: int, allowed: bool)
    ensures var u := Answered(t, permission, allowed);
            && u.handled == t.handled
            && (u == t <==> !(Listening(t.phase) && t.phase.permission == permission) || t.phase.answer == Some(allowed))
            && (u != t ==>
                  && Listening(u.phase) && u.phase.permission == permission && u.phase.answer == Some(allowed)
                  && u.phase.approval == t.phase.approval && (u.phase.Announcing? <==> t.phase.Announcing?))
  {
  }

  lemma DeliverHolds(w: World, permission: int, allowed: bool)
    ensures SameHolds(w, Heard(w, permission, allowed))
  {
    if permission in w.v.waiters && w.v.waiters[permission] in w.tasks {
      AnswerHeard(w.tasks[w.v.waiters[permission]], permission, allowed);
    }
  }

  lemma QuietHolds(w: World, step: Step)
    requires Quiet(step) && (forall k | k in w.tasks :: k in w.runs <==> !w.tasks[k].phase.Starting?)
    ensures SameHolds(w, Apply(w, step))
  {
    if Possible(w, step) {
      match step {
        case Go(k, move) => MoveHolds(w, k, move);
        case Deliver(permission, allowed) => DeliverHolds(w, permission, allowed);
        case Respond(k) =>
        case Replay =>
        case Answer =>
        case Emit(k, _) => assert Apply(w, step).runs.Keys == w.runs.Keys;
        case Change(k, _, _) => assert Apply(w, step).runs.Keys == w.runs.Keys;
        case Cancel(k) => assert Apply(w, step).runs.Keys == w.runs.Keys;
        case FreeElsewhere(s) =>
      }
    }
  }

  lemma HeldFrame(w: World, x: World)
    requires Held(w) && SameHolds(w, x)
    ensures Held(x)
  {
  }

  lemma OwnersAfterStart(sessions: Sessions, tasks: Tasks, owner: map<string, nat>, k: nat)
    requires OwnersMatch(sessions, tasks, owner) && k in tasks && tasks[k].session in sessions && Owns(tasks, k)
    ensures var s := tasks[k].session;
            OwnersMatch(sessions[s := sessions[s].(active := Some(k))], tasks[k := tasks[k].(phase := Waiting)], owner)
  {
  }

  lemma HeldAfterStart(sessions: Sessions, owner: map<string, nat>, started: set<nat>, elsewhere: set<string>, s: string, k: nat)
    requires SessionsHeld(sessions, owner, started, elsewhere) && s in sessions && OwnerIs(owner, s, k) && k !in started
    requires forall r | OwnerIs(owner, r, k) :: r == s
    ensures SessionsHeld(sessions[s := sessions[s].(active := Some(k))], owner, started + {k}, elsewhere)
  {
    assert forall r | r in owner :: OwnerIs(owner, r, k) <==> owner[r] == k;
  }

  lemma StartHolds(w: World, k: nat)
    requires Held(w) && k in w.tasks && w.tasks[k].phase.Starting?
    ensures Held(Started(w, k))
  {
    var x := Started(w, k);
    assert Owns(w.tasks, k);
    OwnersAfterStart(w.v.sessions, w.tasks, w.owner, k);
    assert x.runs.Keys == w.runs.Keys + {k};
    HeldAfterStart(w.v.sessions, w.owner, w.runs.Keys, w.elsewhere, w.tasks[k].session, k);
  }

  lemma OwnersAfterRelease(sessions: Sessions, tasks: Tasks, owner: map<string, nat>, k: nat, outcome: Outcome)
    requires OwnersMatch(sessions, tasks, owner) && Owns(tasks, k)
    ensures var s := tasks[k].session;
            s in sessions
            && OwnersMatch(sessions[s := sessions[s].(active := None, busy := false, lease := false)],
                           tasks[k := tasks[k].(phase := Responding(outcome))], owner - {s})
  {
    var s := tasks[k].session;
    assert OwnerIs(owner, s, k);
  }

  lemma HeldAfterRelease(sessions: Sessions, owner: map<string, nat>, started: set<nat>, elsewhere: set<string>, s: string)
    requires SessionsHeld(sessions, owner, started, elsewhere) && s in sessions
    ensures SessionsHeld(sessions[s := sessions[s].(active := None, busy := false, lease := false)], owner - {s}, started, elsewhere)
  {
  }

  lemma ReleaseHolds(w: World, k: nat, saved: bool)
    requires Held(w) && k in w.tasks && w.tasks[k].phase.Releasing?
    ensures Held(GivenUp(w, k, saved))
  {
    var x := GivenUp(w, k, saved);
    assert Owns(w.tasks, k);
    OwnersAfterRelease(w.v.sessions, w.tasks, w.owner, k, x.tasks[k].phase.outcome);
    HeldAfterRelease(w.v.sessions, w.owner, w.runs.Keys, w.elsewhere, w.tasks[k].session);
  }

  /** Opening and loading touch sessions that are not busy, and leave them so. */
  predicate Reset(old_: Sessions, new_: Sessions, s: string) {
    s in new_ && !new_[s].busy && !new_[s].lease && new_[s].active.None?
    && (s in old_ ==> !old_[s].busy)
    && new_ == old_[s := new_[s]]
  }

  /** The session a call opens or reopens. */
  function Named(m: Inbound): string {
    match m.call
    case NewSession(session, _) => session
    case LoadSession(session, _) => session
    case _ => ""
  }

  lemma ResponseResets(v: State, m: Inbound)
    requires m.call.NewSession? ==> m.call.session !in v.sessions
    ensures var x := Response(v, m).0;
            && (x.sessions == v.sessions || Reset(v.sessions, x.sessions, Named(m)))
            && x.waiters == v.waiters && x.nextId == v.nextId && x.outbound == v.outbound
  {
  }

  lemma ResponseSends(v: State, m: Inbound)
    ensures var (x, rest, outcome) := Response(v, m);
            && x.waiters == v.waiters && x.nextId == v.nextId && x.outbound == v.outbound
            && Replays(rest) == Owed(m, outcome)
  {
  }

  lemma OwnersAfterReset(old_: Sessions, new_: Sessions, s: string, tasks: Tasks, owner: map<string, nat>, w: World)
    requires OwnersMatch(old_, tasks, owner) && (new_ == old_ || Reset(old_, new_, s))
    requires SessionsHeld(old_, owner, w.runs.Keys, w.elsewhere)
    ensures OwnersMatch(new_, tasks, owner) && SessionsHeld(new_, owner, w.runs.Keys, w.elsewhere)
  {
  }

  lemma NumbersAfterReceive(received: seq<Inbound>, m: Inbound, tasks: Tasks, started: set<nat>)
    requires TasksNumbered(received, tasks, started)
    ensures TasksNumbered(received + [m], tasks, started)
    ensures |received| !in tasks && |received| !in started
    ensures m.id.Some? && m.call.Prompt? ==>
              forall t: Task | t.id == m.id.value && t.phase.Starting? ::
                TasksNumbered(received + [m], tasks[|received| := t], started)
  {
  }

  lemma RepliedHolds(w: World, m: Inbound, v: State, s: string, rest: seq<SessionData.Message>, outcome: Outcome)
    requires Held(w) && w.reader.Idle? && !m.call.CancelPrompt?
    requires v.sessions == w.v.sessions || Reset(w.v.sessions, v.sessions, s)
    ensures Held(Replying(w, v, m, rest, outcome))
  {
    OwnersAfterReset(w.v.sessions, v.sessions, s, w.tasks, w.owner, w);
    NumbersAfterReceive(w.received, m, w.tasks, w.runs.Keys);
  }

  lemma OwnersAfterBegin(sessions: Sessions, tasks: Tasks, owner: map<string, nat>, s: string, k: nat, t: Task)
    requires OwnersMatch(sessions, tasks, owner) && s in sessions && !sessions[s].busy
    requires k !in tasks && t.session == s && t.phase.Starting?
    ensures OwnersMatch(sessions[s := sessions[s].(busy := true, lease := sessions[s].stored)], tasks[k := t], owner[s := k])
  {
    assert forall j | Owns(tasks, j) :: tasks[j].session != s;
  }

  lemma HeldAfterBegin(
      sessions: Sessions, owner: map<string, nat>, started: set<nat>, elsewhere: set<string>, s: string, k: nat)
    requires SessionsHeld(sessions, owner, started, elsewhere) && s in sessions && s !in owner && k !in started
    requires sessions[s].stored ==> s !in elsewhere
    ensures SessionsHeld(sessions[s := sessions[s].(busy := true, lease := sessions[s].stored)], owner[s := k], started, elsewhere)
  {
  }

  lemma PromptHolds(w: World, m: Inbound)
    requires Held(w) && w.reader.Idle? && m.id.Some? && m.call.Prompt?
    ensures Held(Prompting(w, m))
  {
    var s := m.call.into;
    var refusal := Refused(w.v, s, m.call.free && (s.None? || s.value !in w.elsewhere), m.call.saved);
    if refusal.Some? {
      RepliedHolds(w, m, w.v, "", [], Outcome.Failed(refusal.value));
    } else {
      NumbersAfterReceive(w.received, m, w.tasks, w.runs.Keys);
      var k, t := |w.received|, Task(m.id.value, s.value, Starting, 0, 0, StopReason.EndTurn, {});
      OwnersAfterBegin(w.v.sessions, w.tasks, w.owner, s.value, k, t);
      HeldAfterBegin(w.v.sessions, w.owner, w.runs.Keys, w.elsewhere, s.value, k);
    }
  }

  lemma StoppingHolds(w: World, m: Inbound)
    requires Held(w) && w.reader.Idle? && m.call.CancelPrompt?
    ensures Held(Stopping(w, m.call.target).(received := w.received + [m]))
  {
    NumbersAfterReceive(w.received, m, w.tasks, w.runs.Keys);
    assert Stopping(w, m.call.target).runs.Keys == w.runs.Keys;
  }

  lemma ReceiveHolds(w: World, m: Inbound)
    requires Held(w) && w.reader.Idle? && (m.call.NewSession? ==> m.call.session !in w.v.sessions)
    ensures Held(Dispatched(w, m))
  {
    if m.call.CancelPrompt? {
      StoppingHolds(w, m);
    } else if m.id.None? {
      NumbersAfterReceive(w.received, m, w.tasks, w.runs.Keys);
    } else if m.call.Prompt? {
      PromptHolds(w, m);
    } else {
      var (v, rest, outcome) := Response(w.v, m);
      ResponseResets(w.v, m);
      RepliedHolds(w, m, v, Named(m), rest, outcome);
    }
  }

  lemma HeldStep(w: World, step: Step)
    requires Held(w)
    ensures Held(Apply(w, step))
  {
    if Possible(w, step) {
      match step {
        case Receive(m) => ReceiveHolds(w, m);
        case Start(k) => StartHolds(w, k);
        case Release(k, saved) => ReleaseHolds(w, k, saved);
        case LeaseElsewhere(s) =>
        case _ =>
          QuietHolds(w, step);
          HeldFrame(w, Apply(w, step));
      }
    }
  }

  // ---------------------------------------------------------------- responses

  function Replies(out: seq<Msg>, k: nat): nat {
    if out == [] then 0
    else
      var last := out[|out| - 1];
      Replies(out[..|out| - 1], k) + if last.Reply? && last.request == k then 1 else 0
  }

  lemma RepliesAppend(out: seq<Msg>, m: Msg, k: nat)
    ensures Replies(out + [m], k) == Replies(out, k) + if m.Reply? && m.request == k then 1 else 0
  {
    assert (out + [m])[..|out|] == out;
  }

  lemma {:induction false} NoReply(out: seq<Msg>, k: nat)
    ensures Replies(out, k) == 0 <==> forall i | 0 <= i < |out| :: !(out[i].Reply? && out[i].request == k)
  {
    if out != [] {
      NoReply(out[..|out| - 1], k);
    }
  }

  /** The requests whose response is still to come: the prompts in flight, and the one the
    * reader is answering. */
  function Flight(w: World): set<nat> {
    w.tasks.Keys + if w.reader.Answering? then {w.reader.request} else {}
  }

  predicate IsDue(received: seq<Inbound>, k: nat) {
    k < |received| && Due(received[k])
  }

  ghost predicate Conserved(out: seq<Msg>, received: seq<Inbound>, flight: set<nat>) {
    && (forall k: nat | k in flight :: IsDue(received, k))
    && (forall k: nat :: Replies(out, k) == if IsDue(received, k) && k !in flight then 1 else 0)
  }

  predicate Ended(out: seq<Msg>, i: nat, j: nat)
    requires i < |out| && j < |out|
  {
    out[i].Reply? && out[i].request == out[j].request
  }

  /** Nothing follows a response, and every response carries its request's id. */
  predicate Closed(out: seq<Msg>, received: seq<Inbound>) {
    && (forall i, j | 0 <= i < j < |out| :: !Ended(out, i, j))
    && (forall i | 0 <= i < |out| :: out[i].request < |received|)
    && (forall i | 0 <= i < |out| && out[i].Reply? :: received[out[i].request].id == Some(out[i].id))
  }

  ghost predicate Traffic(out: seq<Msg>, received: seq<Inbound>, flight: set<nat>) {
    Conserved(out, received, flight) && Closed(out, received)
  }

  /** Sending on behalf of a request in flight; a response ends its flight. */
  lemma SendTraffic(out: seq<Msg>, received: seq<Inbound>, flight: set<nat>, m: Msg)
    requires Traffic(out, received, flight) && m.request in flight
    requires m.Reply? ==> received[m.request].id == Some(m.id)
    ensures Traffic(out + [m], received, if m.Reply? then flight - {m.request} else flight)
  {
    var k := m.request;
    assert Replies(out, k) == 0;
    NoReply(out, k);
    forall j: nat
      ensures Replies(out + [m], j) == Replies(out, j) + if m.Reply? && k == j then 1 else 0
    {
      RepliesAppend(out, m, j);
    }
    forall i, j | 0 <= i < j < |out + [m]|
      ensures !Ended(out + [m], i, j)
    {
      assert (out + [m])[i] == out[i];
      if j < |out| {
        assert !Ended(out, i, j);
      }
    }
  }

  lemma ReceiveTraffic(out: seq<Msg>, received: seq<Inbound>, flight: set<nat>, m: Inbound)
    requires Traffic(out, received, flight)
    ensures Traffic(out, received + [m], if Due(m) then flight + {|received|} else flight)
  {
    var n := |received|;
    var more := received + [m];
    assert forall k: nat | k < n :: more[k] == received[k];
    assert Replies(out, n) == 0;
    forall k: nat
      ensures Replies(out, k) == if IsDue(more, k) && k !in (if Due(m) then flight + {n} else flight) then 1 else 0
    {
      if k == n {
      } else {
        assert IsDue(more, k) <==> IsDue(received, k);
      }
    }
  }

  ghost predicate Flowing(w: World) {
    Traffic(w.v.outbound, w.received, Flight(w))
  }

  /** What a move sends, if anything. */
  lemma MoveSends(v: State, k: nat, t: Task, r: Managed, move: Move)
    requires CanGo(t, r, move)
    ensures var x := StateAfter(v, k, t, r, move);
            if move.Forward? && Visible(r.events[t.sent]) then x.outbound == v.outbound + [Update(k, Live(r.events[t.sent]))]
            else if move.Announce? then x.outbound == v.outbound + [Permission(k, t.phase.permission, t.phase.approval)]
            else x.outbound == v.outbound
  {
  }

  lemma MoveFlows(w: World, k: nat, move: Move)
    requires Flowing(w) && k in w.tasks && k in w.runs && CanGo(w.tasks[k], w.runs[k], move)
    ensures Flowing(Gone(w, k, move))
  {
    var x := Gone(w, k, move);
    var t, r := w.tasks[k], w.runs[k];
    MoveSends(w.v, k, t, r, move);
    assert Flight(x) == Flight(w);
    if |x.v.outbound| != |w.v.outbound| {
      SendTraffic(w.v.outbound, w.received, Flight(w), x.v.outbound[|w.v.outbound|]);
    }
  }

  lemma OpeningSendsNothing(v: State, session: string, store: Store, found: Found)
    ensures Opened(v, session, store).outbound == v.outbound
    ensures Reopened(v, session, found).outbound == v.outbound
    ensures session in v.sessions ==> Begun(v, session).outbound == v.outbound
  {
  }

  /** Dispatching sends nothing yet, and puts a request in flight exactly when it is owed a
    * response. */
  ghost predicate Accepts(w: World, m: Inbound, x: World) {
    && x.v.outbound == w.v.outbound && x.received == w.received + [m]
    && Flight(x) == if Due(m) then Flight(w) + {|w.received|} else Flight(w)
  }

  lemma ReplyingAccepts(w: World, m: Inbound, v: State, rest: seq<SessionData.Message>, outcome: Outcome)
    requires w.reader.Idle? && v.outbound == w.v.outbound && !m.call.CancelPrompt?
    ensures Accepts(w, m, Replying(w, v, m, rest, outcome))
  {
  }

  lemma PromptingAccepts(w: World, m: Inbound)
    requires w.reader.Idle? && m.id.Some? && m.call.Prompt?
    ensures Accepts(w, m, Prompting(w, m))
  {
    var s := m.call.into;
    var refusal := Refused(w.v, s, m.call.free && (s.None? || s.value !in w.elsewhere), m.call.saved);
    if refusal.Some? {
      ReplyingAccepts(w, m, w.v, [], Outcome.Failed(refusal.value));
    } else {
      OpeningSendsNothing(w.v, s.value, InMemory, Disabled);
      assert Prompting(w, m).tasks.Keys == w.tasks.Keys + {|w.received|};
    }
  }

  lemma DispatchAccepts(w: World, m: Inbound)
    requires w.reader.Idle?
    ensures Accepts(w, m, Dispatched(w, m))
  {
    if m.call.CancelPrompt? || m.id.None? {
    } else if m.call.Prompt? {
      PromptingAccepts(w, m);
    } else {
      var (v, rest, outcome) := Response(w.v, m);
      ResponseSends(w.v, m);
      ReplyingAccepts(w, m, v, rest, outcome);
    }
  }

  lemma ReceiveFlows(w: World, m: Inbound)
    requires Flowing(w) && w.reader.Idle?
    ensures Flowing(Dispatched(w, m))
  {
    ReceiveTraffic(w.v.outbound, w.received, Flight(w), m);
    DispatchAccepts(w, m);
  }

  lemma ReplayFlows(w: World)
    requires Flowing(w) && w.reader.Answering? && w.reader.rest != []
    ensures Flowing(OneReplayed(w))
  {
    var x := OneReplayed(w);
    if |x.v.outbound| != |w.v.outbound| {
      SendTraffic(w.v.outbound, w.received, Flight(w), x.v.outbound[|w.v.outbound|]);
    }
    assert Flight(x) == Flight(w);
  }

  lemma AnswerFlows(w: World)
    requires Held(w) && Flowing(w) && w.reader.Answering? && w.reader.rest == []
    ensures Flowing(Apply(w, Answer))
  {
    var x := Apply(w, Answer);
    SendTraffic(w.v.outbound, w.received, Flight(w), x.v.outbound[|w.v.outbound|]);
    assert Flight(x) == Flight(w) - {w.reader.request};
  }

  lemma RespondFlows(w: World, k: nat)
    requires Held(w) && Flowing(w) && Possible(w, Respond(k))
    ensures Flowing(Apply(w, Respond(k)))
  {
    var x := Apply(w, Respond(k));
    SendTraffic(w.v.outbound, w.received, Flight(w), x.v.outbound[|w.v.outbound|]);
    assert Flight(x) == Flight(w) - {k};
  }

  lemma SilentFlows(w: World, x: World)
    requires Flowing(w)
    requires x.v.outbound == w.v.outbound && x.received == w.received && x.reader == w.reader && x.tasks.Keys == w.tasks.Keys
    ensures Flowing(x)
  {
    assert Flight(x) == Flight(w);
  }

  /** Steps of the runs and of other processes, and answers of the client, send nothing. */
  lemma OutsideFlows(w: World, step: Step)
    requires Flowing(w) && Possible(w, step)
    requires step.Emit? || step.Change? || step.Cancel? || step.Deliver? || step.LeaseElsewhere? || step.FreeElsewhere?
    ensures Flowing(Apply(w, step))
  {
    SilentFlows(w, Apply(w, step));
  }

  lemma ReaderFlows(w: World, step: Step)
    requires Held(w) && Flowing(w) && Possible(w, step) && (step.Receive? || step.Replay? || step.Answer?)
    ensures Flowing(Apply(w, step))
  {
    match step {
      case Receive(m) => ReceiveFlows(w, m);
      case Replay => ReplayFlows(w);
      case Answer => AnswerFlows(w);
    }
  }

  lemma StartFlows(w: World, k: nat)
    requires Flowing(w) && Possible(w, Start(k))
    ensures Flowing(Apply(w, Start(k)))
  {
    SilentFlows(w, Started(w, k));
  }

  lemma ReleaseFlows(w: World, k: nat, saved: bool)
    requires Flowing(w) && Possible(w, Release(k, saved))
    ensures Flowing(Apply(w, Release(k, saved)))
  {
    SilentFlows(w, GivenUp(w, k, saved));
  }

  lemma FlowingStep(w: World, step: Step)
    requires Held(w) && Flowing(w)
    ensures Flowing(Apply(w, step))
  {
    if Possible(w, step) {
      match step {
        case Start(k) => StartFlows(w, k);
        case Go(k, move) => MoveFlows(w, k, move);
        case Release(k, saved) => ReleaseFlows(w, k, saved);
        case Respond(k) => RespondFlows(w, k);
        case Receive(_) => ReaderFlows(w, step);
        case Replay => ReaderFlows(w, step);
        case Answer => ReaderFlows(w, step);
        case _ => OutsideFlows(w, step);
      }
    }
  }

  // ---------------------------------------------------------------- updates

  /** What the client was shown for request `k`. */
  function Shown(out: seq<Msg>, k: nat): seq<Item> {
    if out == [] then []
    else
      var last := out[|out| - 1];
      Shown(out[..|out| - 1], k) + if last.Update? && last.request == k then [last.item] else []
  }

  lemma ShownAppend(out: seq<Msg>, m: Msg, k: nat)
    ensures Shown(out + [m], k) == Shown(out, k) + if m.Update? && m.request == k then [m.item] else []
  {
    assert (out + [m])[..|out|] == out;
  }

  lemma {:induction false} NothingShown(out: seq<Msg>, k: nat)
    requires forall i | 0 <= i < |out| :: out[i].request != k
    ensures Shown(out, k) == []
  {
    if out != [] {
      NothingShown(out[..|out| - 1], k);
    }
  }

  /** The reason a run reports: its last one, or the end of the turn. */
  function ReasonOf(events: seq<Event>): StopReason {
    match LastReason(events)
    case None => StopReason.EndTurn
    case Some(reason) => reason
  }

  /** The client has been shown the first `sent` events of the run, and a task past its
    * loop has forwarded them all. */
  predicate TaskShows(t: Task, r: Managed, shown: seq<Item>) {
    && t.sent <= t.seen <= |r.events|
    && shown == Updates(r.events[..t.sent]) && t.reason == ReasonOf(r.events[..t.sent])
    && (t.phase.Sending? && Terminal(t.phase.status) ==> r.status == t.phase.status && t.seen == |r.events|)
    && (!t.phase.Sending? ==> t.sent == t.seen)
    && (t.phase.Releasing? ==> Terminal(r.status) && r.status == t.phase.status && t.seen == |r.events|)
    && (t.phase.Responding? ==> t.seen == |r.events| && PromptOutcome(r, t.phase.outcome))
  }

  predicate PromptOutcome(r: Managed, outcome: Outcome) {
    && Terminal(r.status)
    && (outcome == Outcome.Failed(INTERNAL) || outcome == Stopped(Ending(r.status, ReasonOf(r.events))))
  }

  /** What a response with this outcome says was shown before it. */
  function Owed(m: Inbound, outcome: Outcome): seq<Item> {
    if outcome.Done? then Replays(Transcript(m)) else []
  }

  predicate ReplyShows(w: World, k: nat, outcome: Outcome, shown: seq<Item>) {
    if k in w.runs then shown == Updates(w.runs[k].events) && PromptOutcome(w.runs[k], outcome)
    else k < |w.received| && shown == Owed(w.received[k], outcome)
  }

  predicate Untold(t: Task) {
    t.sent == 0 && t.seen == 0 && t.reason.EndTurn?
  }

  predicate TasksShow(w: World) {
    forall k | k in w.tasks ::
      if k in w.runs then TaskShows(w.tasks[k], w.runs[k], Shown(w.v.outbound, k))
      else Untold(w.tasks[k]) && Shown(w.v.outbound, k) == []
  }

  predicate ReaderShows(w: World) {
    w.reader.Answering? ==>
      && w.reader.request < |w.received|
      && Shown(w.v.outbound, w.reader.request) + Replays(w.reader.rest) == Owed(w.received[w.reader.request], w.reader.outcome)
  }

  predicate RepliesShow(w: World) {
    forall i | 0 <= i < |w.v.outbound| && w.v.outbound[i].Reply? ::
      ReplyShows(w, w.v.outbound[i].request, w.v.outbound[i].outcome, Shown(w.v.outbound, w.v.outbound[i].request))
  }

  predicate Showing(w: World) {
    TasksShow(w) && ReaderShows(w) && RepliesShow(w)
  }

  lemma MoveShows(v: State, k: nat, t: Task, r: Managed, move: Move, shown: seq<Item>)
    requires CanGo(t, r, move) && TaskShows(t, r, shown)
    ensures var more := if move.Forward? && Visible(r.events[t.sent]) then [Live(r.events[t.sent])] else [];
            TaskShows(TaskAfter(v, t, r, move), RunAfter(t, r, move), shown + more)
  {
    match move {
      case Forward => UpdatesPrefix(r.events, t.sent);
      case Read =>
      case Proceed =>
      case _ =>
    }
  }

  /** What sending one message, or none, shows: the item to its own request only. */
  ghost predicate ShowsMore(old_: seq<Msg>, new_: seq<Msg>, k: nat, more: seq<Item>) {
    && Shown(new_, k) == Shown(old_, k) + more
    && forall j: nat | j != k :: Shown(new_, j) == Shown(old_, j)
  }

  lemma SendShows(out: seq<Msg>, m: Msg)
    ensures ShowsMore(out, out + [m], m.request, if m.Update? then [m.item] else [])
  {
    forall j: nat
      ensures Shown(out + [m], j) == Shown(out, j) + if m.Update? && m.request == j then [m.item] else []
    {
      ShownAppend(out, m, j);
    }
  }

  /** Responses already sent keep what they said: their requests are shown nothing more and
    * their runs have ended. */
  lemma RepliesKept(w: World, x: World)
    requires Flowing(w) && RepliesShow(w) && w.received <= x.received
    requires x.v.outbound == w.v.outbound
             || (|x.v.outbound| == |w.v.outbound| + 1 && w.v.outbound <= x.v.outbound
                 && !x.v.outbound[|w.v.outbound|].Reply?)
    requires forall j: nat | j !in Flight(w) && j < |w.received| :: Shown(x.v.outbound, j) == Shown(w.v.outbound, j)
    requires forall j: nat | j !in Flight(w) && j < |w.received| ::
               if j in w.runs then j in x.runs && (Terminal(w.runs[j].status) ==>
                 x.runs[j].events == w.runs[j].events && x.runs[j].status == w.runs[j].status) else j !in x.runs
    ensures RepliesShow(x)
  {
    forall i | 0 <= i < |x.v.outbound| && x.v.outbound[i].Reply?
      ensures ReplyShows(x, x.v.outbound[i].request, x.v.outbound[i].outcome, Shown(x.v.outbound, x.v.outbound[i].request))
    {
      var m := x.v.outbound[i];
      assert m == w.v.outbound[i];
      NoReply(w.v.outbound, m.request);
      assert m.request !in Flight(w);
    }
  }

  lemma SilentShows(w: World, x: World)
    requires Flowing(w) && Showing(w)
    requires x.v.outbound == w.v.outbound && x.received == w.received && x.reader == w.reader && x.tasks.Keys == w.tasks.Keys
    requires forall k | k in x.runs && k !in w.runs :: k in w.tasks
    requires forall k | k in w.runs :: k in x.runs
               && (Terminal(w.runs[k].status) ==> x.runs[k].events == w.runs[k].events && x.runs[k].status == w.runs[k].status)
    requires forall k | k in x.tasks ::
               if k in x.runs then TaskShows(x.tasks[k], x.runs[k], Shown(w.v.outbound, k))
               else k !in w.runs && x.tasks[k] == w.tasks[k]
    ensures Showing(x)
  {
    RepliesKept(w, x);
  }

  lemma UnseenShows(t: Task, r: Managed, event: Event, shown: seq<Item>)
    requires TaskShows(t, r, shown) && !Terminal(r.status)
    ensures TaskShows(t, r.(events := r.events + [event]), shown)
  {
    assert (r.events + [event])[..t.sent] == r.events[..t.sent];
  }

  lemma AnsweredShows(t: Task, permission: int, allowed: bool)
    ensures var u := Answered(t, permission, allowed);
            && (u == t || ((t.phase.Announcing? || t.phase.Parked?) && (u.phase.Announcing? || u.phase.Parked?)))
            && forall r: Managed, shown :: TaskShows(t, r, shown) ==> TaskShows(u, r, shown)
  {
  }

  lemma DeliverShows(w: World, permission: int, allowed: bool)
    requires Held(w) && Flowing(w) && Showing(w)
    ensures Showing(Heard(w, permission, allowed))
  {
    if permission in w.v.waiters {
      var x := Heard(w, permission, allowed);
      HeardKeepsTasks(w, permission, allowed);
      SilentShows(w, x);
    }
  }

  lemma HeardKeepsTasks(w: World, permission: int, allowed: bool)
    requires Held(w) && Showing(w) && permission in w.v.waiters
    ensures var x := Heard(w, permission, allowed);
            && x.tasks.Keys == w.tasks.Keys
            && forall k | k in w.tasks ::
                 if k in w.runs then TaskShows(x.tasks[k], w.runs[k], Shown(w.v.outbound, k)) else x.tasks[k] == w.tasks[k]
  {
    var k := w.v.waiters[permission];
    if k in w.tasks {
      AnsweredShows(w.tasks[k], permission, allowed);
    }
  }

  lemma StartShows(w: World, k: nat)
    requires Held(w) && Flowing(w) && Showing(w) && k in w.tasks && w.tasks[k].phase.Starting?
    ensures Showing(Started(w, k))
  {
    var x := Started(w, k);
    var r := Managed([], Running, None, false, []);
    assert r.events[..0] == [];
    assert x.runs == w.runs[k := r];
    assert TaskShows(x.tasks[k], r, Shown(w.v.outbound, k));
    SilentShows(w, x);
  }

  /** The run of `k` changes, but not what its task has forwarded. */
  lemma RunChangeShows(w: World, k: nat, r: Managed)
    requires Flowing(w) && Showing(w) && k in w.runs
    requires Terminal(w.runs[k].status) ==> r.events == w.runs[k].events && r.status == w.runs[k].status
    requires k in w.tasks ==> TaskShows(w.tasks[k], r, Shown(w.v.outbound, k))
    ensures Showing(w.(runs := w.runs[k := r]))
  {
    SilentShows(w, w.(runs := w.runs[k := r]));
  }

  lemma RunShows(w: World, step: Step)
    requires Flowing(w) && Showing(w) && Possible(w, step) && (step.Emit? || step.Change? || step.Cancel?)
    ensures Showing(Apply(w, step))
  {
    match step {
      case Emit(k, event) =>
        if k in w.tasks {
          UnseenShows(w.tasks[k], w.runs[k], event, Shown(w.v.outbound, k));
        }
        RunChangeShows(w, k, w.runs[k].(events := w.runs[k].events + [event]));
      case Change(k, status, pending) => RunChangeShows(w, k, w.runs[k].(status := status, pending := pending));
      case Cancel(k) => RunChangeShows(w, k, w.runs[k].(cancelled := true));
    }
  }

  lemma ReleasedTaskShows(t: Task, r: Managed, shown: seq<Item>, outcome: Outcome)
    requires t.phase.Releasing? && TaskShows(t, r, shown)
    requires outcome == Outcome.Failed(INTERNAL) || outcome == Stopped(Ending(t.phase.status, t.reason))
    ensures TaskShows(t.(phase := Responding(outcome)), r, shown)
  {
    assert r.events[..|r.events|] == r.events;
  }

  lemma ReleaseShows(w: World, k: nat, saved: bool)
    requires Held(w) && Flowing(w) && Showing(w) && k in w.tasks && w.tasks[k].phase.Releasing?
    ensures Showing(GivenUp(w, k, saved))
  {
    ReleasedTaskShows(w.tasks[k], w.runs[k], Shown(w.v.outbound, k), GivenUp(w, k, saved).tasks[k].phase.outcome);
    SilentShows(w, GivenUp(w, k, saved));
  }

  /** A step of task `k` that sends at most one update of its own. */
  lemma TaskStepShows(w: World, x: World, k: nat, more: seq<Item>)
    requires Flowing(w) && Showing(w) && k in w.tasks && k in w.runs && k in x.tasks && k in x.runs
    requires x.received == w.received && x.reader == w.reader && (w.reader.Answering? ==> w.reader.request != k)
    requires x.tasks == w.tasks[k := x.tasks[k]] && x.runs == w.runs[k := x.runs[k]]
    requires x.runs[k].events == w.runs[k].events && x.runs[k].status == w.runs[k].status
    requires x.v.outbound == w.v.outbound
             || (|x.v.outbound| == |w.v.outbound| + 1 && w.v.outbound <= x.v.outbound && !x.v.outbound[|w.v.outbound|].Reply?)
    requires ShowsMore(w.v.outbound, x.v.outbound, k, more)
    requires TaskShows(x.tasks[k], x.runs[k], Shown(w.v.outbound, k) + more)
    ensures Showing(x)
  {
    assert TasksShow(x);
    RepliesKept(w, x);
  }

  lemma GoShows(w: World, k: nat, move: Move)
    requires Held(w) && Flowing(w) && Showing(w) && k in w.tasks && k in w.runs && CanGo(w.tasks[k], w.runs[k], move)
    ensures Showing(Gone(w, k, move))
  {
    var x := Gone(w, k, move);
    var t, r := w.tasks[k], w.runs[k];
    var out := w.v.outbound;
    MoveStaysInside(w.v, k, t, r, move);
    MoveShows(w.v, k, t, r, move, Shown(out, k));
    MoveSends(w.v, k, t, r, move);
    if x.v.outbound != out {
      SendShows(out, x.v.outbound[|out|]);
    }
    TaskStepShows(w, x, k, if move.Forward? && Visible(r.events[t.sent]) then [Live(r.events[t.sent])] else []);
  }

  /** What was shown of a transcript and what is left of it are always the whole. */
  lemma ReplayAdvances(w: World)
    requires w.reader.Answering? && w.reader.rest != []
    ensures var x := OneReplayed(w);
            && Shown(x.v.outbound, w.reader.request) + Replays(x.reader.rest)
               == Shown(w.v.outbound, w.reader.request) + Replays(w.reader.rest)
            && (forall j: nat | j != w.reader.request :: Shown(x.v.outbound, j) == Shown(w.v.outbound, j))
  {
    var out, k := w.v.outbound, w.reader.request;
    var m := w.reader.rest[0];
    if !m.role.OtherRole? {
      SendShows(out, Update(k, Replayed(m)));
      assert Shown(out, k) + Replays(w.reader.rest) == (Shown(out, k) + [Replayed(m)]) + Replays(w.reader.rest[1..]);
    }
  }

  lemma ReplayShows(w: World)
    requires Held(w) && Flowing(w) && Showing(w) && w.reader.Answering? && w.reader.rest != []
    ensures Showing(OneReplayed(w))
  {
    ReplayAdvances(w);
    RepliesKept(w, OneReplayed(w));
  }

  lemma ReplySent(w: World, x: World, m: Msg)
    requires Flowing(w) && RepliesShow(w) && m.Reply? && m.request in Flight(w)
    requires x.v.outbound == w.v.outbound + [m] && x.received == w.received && x.runs == w.runs
    requires ReplyShows(w, m.request, m.outcome, Shown(w.v.outbound, m.request))
    ensures RepliesShow(x)
    ensures forall k: nat :: Shown(x.v.outbound, k) == Shown(w.v.outbound, k)
  {
    SendShows(w.v.outbound, m);
    assert forall k: nat :: Shown(x.v.outbound, k) == Shown(w.v.outbound, k);
    forall i | 0 <= i < |x.v.outbound| && x.v.outbound[i].Reply?
      ensures ReplyShows(x, x.v.outbound[i].request, x.v.outbound[i].outcome, Shown(x.v.outbound, x.v.outbound[i].request))
    {
      if i < |w.v.outbound| {
        assert x.v.outbound[i] == w.v.outbound[i];
      }
    }
  }

  lemma AnswerShows(w: World)
    requires Held(w) && Flowing(w) && Showing(w) && Possible(w, Answer)
    ensures Showing(Apply(w, Answer))
  {
    ReplySent(w, Apply(w, Answer), Reply(w.reader.request, w.reader.id, w.reader.outcome));
  }

  lemma RespondShows(w: World, k: nat)
    requires Held(w) && Flowing(w) && Showing(w) && Possible(w, Respond(k))
    ensures Showing(Apply(w, Respond(k)))
  {
    var t, r := w.tasks[k], w.runs[k];
    assert r.events[..|r.events|] == r.events;
    ReplySent(w, Apply(w, Respond(k)), Reply(k, t.id, t.phase.outcome));
  }

  /** Dispatching shows nothing yet; what it owes is what is left to replay. */
  ghost predicate Promises(w: World, m: Inbound, x: World) {
    && x.runs.Keys == w.runs.Keys
    && (forall k | k in w.runs :: x.runs[k].events == w.runs[k].events && x.runs[k].status == w.runs[k].status)
    && (forall k | k in w.tasks :: k in x.tasks && x.tasks[k] == w.tasks[k])
    && (forall k | k in x.tasks && k !in w.tasks :: Untold(x.tasks[k]))
    && (x.reader.Answering? ==> x.reader.request == |w.received| && Replays(x.reader.rest) == Owed(m, x.reader.outcome))
  }

  lemma PromptingPromises(w: World, m: Inbound)
    requires |w.received| !in w.tasks && w.reader.Idle? && m.id.Some? && m.call.Prompt?
    ensures Promises(w, m, Prompting(w, m))
  {
  }

  lemma ReplyingPromises(w: World, m: Inbound, v: State, rest: seq<SessionData.Message>, outcome: Outcome)
    requires w.reader.Idle? && Replays(rest) == Owed(m, outcome)
    ensures Promises(w, m, Replying(w, v, m, rest, outcome))
  {
  }

  lemma StoppingPromises(w: World, m: Inbound)
    requires w.reader.Idle? && m.call.CancelPrompt?
    ensures Promises(w, m, Stopping(w, m.call.target).(received := w.received + [m]))
  {
    assert Stopping(w, m.call.target).runs.Keys == w.runs.Keys;
  }

  lemma DispatchPromises(w: World, m: Inbound)
    requires Held(w) && w.reader.Idle?
    ensures Promises(w, m, Dispatched(w, m))
  {
    if m.call.CancelPrompt? {
      StoppingPromises(w, m);
    } else if m.id.None? {
    } else if m.call.Prompt? {
      PromptingPromises(w, m);
    } else {
      var (v, rest, outcome) := Response(w.v, m);
      ResponseSends(w.v, m);
      ReplyingPromises(w, m, v, rest, outcome);
    }
  }

  lemma NewcomersAreNew(w: World, m: Inbound, x: World, k: nat)
    requires Held(w) && w.reader.Idle? && Accepts(w, m, x) && Promises(w, m, x) && k in x.tasks && k !in w.tasks
    ensures k == |w.received| && k !in x.runs
  {
    assert k in Flight(x);
    NumbersAfterReceive(w.received, m, w.tasks, w.runs.Keys);
  }

  lemma AcceptedTasksShow(w: World, m: Inbound, x: World)
    requires Held(w) && Flowing(w) && Showing(w) && w.reader.Idle? && Accepts(w, m, x) && Promises(w, m, x)
    ensures TasksShow(x)
  {
    NothingShown(w.v.outbound, |w.received|);
    forall k | k in x.tasks
      ensures if k in x.runs then TaskShows(x.tasks[k], x.runs[k], Shown(x.v.outbound, k))
              else Untold(x.tasks[k]) && Shown(x.v.outbound, k) == []
    {
      if k !in w.tasks {
        NewcomersAreNew(w, m, x, k);
      }
    }
  }

  lemma AcceptedShows(w: World, m: Inbound, x: World)
    requires Held(w) && Held(x) && Flowing(w) && Showing(w) && w.reader.Idle? && Accepts(w, m, x) && Promises(w, m, x)
    ensures Showing(x)
  {
    AcceptedTasksShow(w, m, x);
    NothingShown(w.v.outbound, |w.received|);
    assert ReaderShows(x);
    RepliesKept(w, x);
  }

  lemma ReceiveShows(w: World, m: Inbound)
    requires Held(w) && Flowing(w) && Showing(w) && Possible(w, Receive(m))
    ensures Showing(Dispatched(w, m))
  {
    ReceiveHolds(w, m);
    DispatchAccepts(w, m);
    DispatchPromises(w, m);
    AcceptedShows(w, m, Dispatched(w, m));
  }

  lemma ShowingStep(w: World, step: Step)
    requires Held(w) && Flowing(w) && Showing(w)
    ensures Showing(Apply(w, step))
  {
    if Possible(w, step) {
      match step {
        case Receive(m) => ReceiveShows(w, m);
        case Replay => ReplayShows(w);
        case Answer => AnswerShows(w);
        case Go(k, move) => GoShows(w, k, move);
        case Release(k, saved) => ReleaseShows(w, k, saved);
        case Respond(k) => RespondShows(w, k);
        case LeaseElsewhere(_) =>
        case FreeElsewhere(_) =>
        case Deliver(permission, allowed) => DeliverShows(w, permission, allowed);
        case Start(k) => StartShows(w, k);
        case _ => RunShows(w, step);
      }
    }
  }

  // ---------------------------------------------------------------- every run of the server

  ghost predicate Inv(w: World) {
    Held(w) && Flowing(w) && Showing(w)
  }

  lemma InvStep(w: World, step: Step)
    requires Inv(w)
    ensures Inv(Apply(w, step))
  {
    HeldStep(w, step);
    FlowingStep(w, step);
    ShowingStep(w, step);
  }

  lemma {:induction false} InvRun(w: World, steps: seq<Step>)
    requires Inv(w)
    ensures Inv(Run(w, steps))
    decreases |steps|
  {
    if steps != [] {
      InvStep(w, steps[0]);
      InvRun(Apply(w, steps[0]), steps[1..]);
    }
  }

  /** A session is busy exactly when one prompt in flight owns it; while it is, and only
    * then, a stored session holds its run lease, which no other process holds. */
  lemma BusyMeansOneOwner(steps: seq<Step>, s: string)
    ensures var w := Run(Begin(), steps);
            s in w.v.sessions ==>
              && (w.v.sessions[s].busy <==> exists k: nat :: Owns(w.tasks, k) && w.tasks[k].session == s)
              && (forall j, k | Owns(w.tasks, j) && Owns(w.tasks, k) && w.tasks[j].session == s == w.tasks[k].session :: j == k)
              && (w.v.sessions[s].lease <==> w.v.sessions[s].busy && w.v.sessions[s].stored)
              && (w.v.sessions[s].lease ==> s !in w.elsewhere)
  {
    InvRun(Begin(), steps);
    var w := Run(Begin(), steps);
    if s in w.v.sessions {
      assert HeldRight(w.v.sessions[s], s, w.owner, w.runs.Keys, w.elsewhere);
      if w.v.sessions[s].busy {
        assert Owns(w.tasks, w.owner[s]) && w.tasks[w.owner[s]].session == s;
      }
      forall k | Owns(w.tasks, k) && w.tasks[k].session == s
        ensures OwnerIs(w.owner, s, k)
      {
      }
    }
  }

  /** A cancel reaches the run of the one prompt its session is busy with, once that has
    * started, and no other; without one it changes nothing. */
  lemma CancelReachesItsRun(steps: seq<Step>, id: Option<string>, s: string, k: nat)
    ensures var w := Run(Begin(), steps);
            var x := Apply(w, Receive(Inbound(id, CancelPrompt(Some(s)))));
            w.reader.Idle? ==>
              && x.v == w.v && x.tasks == w.tasks && x.runs.Keys == w.runs.Keys && x.reader.Idle?
              && (k in w.runs ==>
                    if Owns(w.tasks, k) && w.tasks[k].session == s then x.runs[k] == w.runs[k].(cancelled := true) else x.runs[k] == w.runs[k])
  {
    InvRun(Begin(), steps);
    var w := Run(Begin(), steps);
    if w.reader.Idle? {
      StoppingReaches(w, s, k);
      assert Apply(w, Receive(Inbound(id, CancelPrompt(Some(s))))).runs == Stopping(w, Some(s)).runs;
    }
  }

  lemma StoppingReaches(w: World, s: string, k: nat)
    requires OwnersMatch(w.v.sessions, w.tasks, w.owner) && SessionsHeld(w.v.sessions, w.owner, w.runs.Keys, w.elsewhere)
    ensures var x := Stopping(w, Some(s));
            && x.v == w.v && x.tasks == w.tasks && x.runs.Keys == w.runs.Keys && x.reader == w.reader
            && (k in w.runs ==>
                  if Owns(w.tasks, k) && w.tasks[k].session == s then x.runs[k] == w.runs[k].(cancelled := true) else x.runs[k] == w.runs[k])
  {
    if s in w.v.sessions {
      assert HeldRight(w.v.sessions[s], s, w.owner, w.runs.Keys, w.elsewhere);
    }
    if Owns(w.tasks, k) && w.tasks[k].session == s {
      assert OwnerIs(w.owner, s, k);
    }
    if s in w.owner {
      assert Owns(w.tasks, w.owner[s]) && w.tasks[w.owner[s]].session == s;
    }
  }

  /** What a request other than a prompt or a cancel comes to: the reader answers with the
    * outcome, a loaded transcript first, and only an opened or reopened session changes. */
  lemma RequestsAreCarriedOut(w: World, id: string, call: Call)
    requires Possible(w, Receive(Inbound(Some(id), call))) && !call.Prompt? && !call.CancelPrompt?
    ensures var x := Apply(w, Receive(Inbound(Some(id), call)));
            && x.reader.Answering? && x.reader.request == |w.received| && x.reader.id == id
            && x.tasks == w.tasks && x.runs == w.runs && x.v.outbound == w.v.outbound && x.v.waiters == w.v.waiters
            && match call
               case Initialize => x.reader.outcome == Done && x.reader.rest == [] && x.v == w.v
               case Authenticate => x.reader.outcome == Done && x.reader.rest == [] && x.v == w.v
               case UnknownMethod => x.reader.outcome == Outcome.Failed(-32601) && x.reader.rest == [] && x.v == w.v
               case NewSession(s, store) =>
                 && x.reader.rest == []
                 && x.reader.outcome == (match store
                                         case NoProfile => Outcome.Failed(-32602)
                                         case InMemory => Done
                                         case Saving(ok) => if ok then Done else Outcome.Failed(-32603))
                 && x.v.sessions == if x.reader.outcome.Done? then w.v.sessions[s := Open(store.Saving?, false, None, false)] else w.v.sessions
               case LoadSession(s, found) =>
                 if found.Loaded? && !(s in w.v.sessions && w.v.sessions[s].busy)
                 then x.reader.outcome == Done && x.reader.rest == found.messages
                      && x.v.sessions == w.v.sessions[s := Open(true, false, None, false)]
                 else x.reader.outcome == Outcome.Failed(if found.Disabled? then -32601 else -32602)
                      && x.reader.rest == [] && x.v.sessions == w.v.sessions
               case _ => false
  {
  }

  /** And a prompt: it is refused with its code, or has its session and starts. */
  lemma PromptsAreCarriedOut(w: World, id: string, session: Option<string>, free: bool, saved: bool)
    requires Possible(w, Receive(Inbound(Some(id), Prompt(session, free, saved))))
    ensures var x := Apply(w, Receive(Inbound(Some(id), Prompt(session, free, saved))));
            var k := |w.received|;
            var known := session.Some? && session.value in w.v.sessions;
            var taken := known && (w.v.sessions[session.value].busy
                                   || (w.v.sessions[session.value].stored && (!free || session.value in w.elsewhere)));
            if !known || taken || (w.v.sessions[session.value].stored && !saved)
            then x.tasks == w.tasks && x.v == w.v
                 && x.reader == Answering(k, id, [], Outcome.Failed(if !known || taken then -32602 else -32603))
            else x.tasks == w.tasks[k := Task(id, session.value, Starting, 0, 0, StopReason.EndTurn, {})] && x.reader.Idle?
                 && x.v.sessions[session.value].busy && x.v.sessions[session.value].lease == w.v.sessions[session.value].stored
  {
  }

  /** Prompt `k` keeps its session, which is as it was except perhaps for `active`. */
  predicate Spared(w: World, x: World, k: nat)
    requires k in w.tasks
  {
    var s := w.tasks[k].session;
    && Owns(x.tasks, k) && x.tasks[k].session == s && s in w.v.sessions && s in x.v.sessions
    && x.v.sessions[s] == w.v.sessions[s].(active := x.v.sessions[s].active)
  }

  lemma RepliedSpares(w: World, m: Inbound, v: State, rest: seq<SessionData.Message>, outcome: Outcome, k: nat)
    requires Owns(w.tasks, k) && w.tasks[k].session in w.v.sessions && w.tasks[k].session in v.sessions
    requires v.sessions[w.tasks[k].session] == w.v.sessions[w.tasks[k].session]
    ensures Spared(w, Replying(w, v, m, rest, outcome), k)
  {
  }

  lemma PromptingSpares(w: World, m: Inbound, k: nat)
    requires Held(w) && w.reader.Idle? && m.id.Some? && m.call.Prompt?
    requires Owns(w.tasks, k) && Busy(w.v, w.tasks[k].session)
    ensures Spared(w, Prompting(w, m), k)
  {
    var s := m.call.into;
    var refusal := Refused(w.v, s, m.call.free && (s.None? || s.value !in w.elsewhere), m.call.saved);
    if refusal.Some? {
      RepliedSpares(w, m, w.v, [], Outcome.Failed(refusal.value), k);
    } else {
      NumbersAfterReceive(w.received, m, w.tasks, w.runs.Keys);
    }
  }

  lemma DispatchSpares(w: World, m: Inbound, k: nat)
    requires Held(w) && w.reader.Idle? && (m.call.NewSession? ==> m.call.session !in w.v.sessions)
    requires Owns(w.tasks, k) && Busy(w.v, w.tasks[k].session)
    ensures Spared(w, Dispatched(w, m), k)
  {
    if m.call.CancelPrompt? || m.id.None? {
    } else if m.call.Prompt? {
      PromptingSpares(w, m, k);
    } else {
      var (v, rest, outcome) := Response(w.v, m);
      ResponseResets(w.v, m);
      RepliedSpares(w, m, v, rest, outcome, k);
    }
  }

  lemma StartSpares(w: World, j: nat, k: nat)
    requires Held(w) && Owns(w.tasks, k) && j in w.tasks && w.tasks[j].phase.Starting?
    ensures Spared(w, Started(w, j), k)
  {
    assert OwnerIs(w.owner, w.tasks[k].session, k);
  }

  lemma ReleaseSpares(w: World, j: nat, saved: bool, k: nat)
    requires Held(w) && Owns(w.tasks, k) && j in w.tasks && w.tasks[j].phase.Releasing? && j != k
    ensures Spared(w, GivenUp(w, j, saved), k)
  {
    assert OwnerIs(w.owner, w.tasks[k].session, k) && OwnerIs(w.owner, w.tasks[j].session, j);
  }

  lemma QuietSpares(w: World, x: World, k: nat)
    requires Held(w) && SameHolds(w, x) && Owns(w.tasks, k)
    ensures Spared(w, x, k)
  {
    assert OwnerIs(w.owner, w.tasks[k].session, k);
  }

  lemma QuietStepSpares(w: World, step: Step, k: nat)
    requires Held(w) && Possible(w, step) && Owns(w.tasks, k)
    requires !step.Receive? && !step.Start? && !step.Release? && !step.LeaseElsewhere?
    ensures Spared(w, Apply(w, step), k)
  {
    QuietHolds(w, step);
    QuietSpares(w, Apply(w, step), k);
  }

  lemma StepSpares(w: World, step: Step, k: nat)
    requires Held(w) && Possible(w, step) && Owns(w.tasks, k) && !(step.Release? && step.k == k)
    ensures Spared(w, Apply(w, step), k)
  {
    assert OwnerIs(w.owner, w.tasks[k].session, k);
    match step {
      case Receive(m) => DispatchSpares(w, m, k);
      case Start(j) => StartSpares(w, j, k);
      case Release(j, saved) => ReleaseSpares(w, j, saved, k);
      case LeaseElsewhere(_) =>
      case _ => QuietStepSpares(w, step, k);
    }
  }

  /** Between its prompt's admission and its release a session is left alone: in particular
    * no load replaces it. */
  lemma BusyUntilReleased(steps: seq<Step>, step: Step, k: nat)
    ensures var w := Run(Begin(), steps);
            Owns(w.tasks, k) && Possible(w, step) && !(step.Release? && step.k == k) ==> Spared(w, Apply(w, step), k)
  {
    InvRun(Begin(), steps);
    var w := Run(Begin(), steps);
    if Owns(w.tasks, k) && Possible(w, step) && !(step.Release? && step.k == k) {
      StepSpares(w, step, k);
    }
  }

  /** Whether or not the run could be saved, the prompt's end gives everything up: the next
    * prompt is refused only for reasons of its own. */
  lemma ReleaseGivesEverythingUp(steps: seq<Step>, k: nat, saved: bool, free: bool, ok: bool)
    ensures var w := Run(Begin(), steps);
            k in w.tasks && w.tasks[k].phase.Releasing? ==>
              var x, s := GivenUp(w, k, saved), w.tasks[k].session;
              && s in x.v.sessions
              && x.v.sessions[s] == Open(w.v.sessions[s].stored, false, None, false)
              && (!x.v.sessions[s].stored || (free && ok) ==> Refused(x.v, Some(s), free, ok).None?)
              && x.tasks[k].phase.Responding?
              && (x.tasks[k].phase.outcome.Failed? <==> w.v.sessions[s].stored && !saved)
  {
    InvRun(Begin(), steps);
    var w := Run(Begin(), steps);
    if k in w.tasks && w.tasks[k].phase.Releasing? {
      assert Owns(w.tasks, k);
      assert OwnerIs(w.owner, w.tasks[k].session, k);
    }
  }

  function One(b: bool): nat {
    if b then 1 else 0
  }

  /** Responses are conserved: a request owed one has been sent exactly one, or is still in
    * flight; nothing else is ever answered. */
  lemma ResponsesAreConserved(steps: seq<Step>, k: nat)
    ensures var w := Run(Begin(), steps);
            Replies(w.v.outbound, k) + One(k in w.tasks) + One(w.reader.Answering? && w.reader.request == k)
              == One(IsDue(w.received, k))
  {
    InvRun(Begin(), steps);
    var w := Run(Begin(), steps);
    if k in w.tasks || (w.reader.Answering? && w.reader.request == k) {
      assert k in Flight(w);
    }
  }

  lemma {:induction false} ShownBefore(out: seq<Msg>, i: nat, k: nat)
    requires i <= |out| && forall j | i <= j < |out| :: !(out[j].Update? && out[j].request == k)
    ensures Shown(out[..i], k) == Shown(out, k)
  {
    if i == |out| {
      assert out[..i] == out;
    } else {
      var n := |out| - 1;
      ShownBefore(out[..n], i, k);
      assert out[..n][..i] == out[..i];
    }
  }

  /** A response carries its request's id, and comes after everything the request has to
    * show: for a prompt every visible event of its run, in order and once, and then how the
    * run ended; for a load the saved transcript. Nothing of the request comes later. */
  lemma ResponseComesLast(steps: seq<Step>, i: nat)
    ensures var w := Run(Begin(), steps);
            var out := w.v.outbound;
            i < |out| && out[i].Reply? ==>
              var k := out[i].request;
              && k < |w.received| && w.received[k].id == Some(out[i].id)
              && (forall j | i < j < |out| :: out[j].request != k)
              && ReplyShows(w, k, out[i].outcome, Shown(out[..i], k))
  {
    InvRun(Begin(), steps);
    var w := Run(Begin(), steps);
    var out := w.v.outbound;
    if i < |out| && out[i].Reply? {
      forall j | i < j < |out|
        ensures out[j].request != out[i].request
      {
        assert !Ended(out, i, j);
      }
      ShownBefore(out, i, out[i].request);
    }
  }
}
