/** One saved session, shared by any number of processes that run turns on it.
  *
  * A process admits a turn under its own busy entry and the session's run lease, which is
  * exclusive across processes; a recorder saves the run and gives both up, the lease
  * first. The request behind a turn may be dropped while it waits, and any process may
  * crash at any moment, losing its entries, its turns and its lease, but not the store nor
  * the journal of the run in flight. Sessions do not share any of this, so one session
  * with all its processes is the whole protocol.
  */
module Turns {
  import opened Wrappers
  import opened Runs
  import opened SessionData

  /** Where a turn is. From `Recovering` on it holds the lease, until `Unleased`; a run
    * refused as it starts is `Denied`, then `Relocking` its process's busy set. */
  datatype Phase =
    | Leasing | Recovering | Erasing | Admitting | Starting | Journaling | Executing | Recording | Closing | Unleased
    | Denied | Relocking

  /** A prompt to append or, with `replacing`, an answer to give again. A prompt of the editor
    * server, which drops no request, is only appended, neither recovers nor writes a
    * journal, and names no profile of its own. */
  datatype Request = Request(replacing: Option<string>, message: string, expected: string, named: Option<string>, limit: nat, editor: bool)

  /** `at` and `torn` are history: the place, among the prompts admitted, of the one the
    * turn runs, and what the world's `torn` was at the turn's admission. */
  datatype Turn = Turn(process: nat, request: Request, phase: Phase, view: Option<View>, at: nat, torn: bool)

  datatype Journal = Journal(run: string, replacing: bool)

  /** An admitted prompt, with its turn and the session it was admitted to. */
  datatype Asked = Asked(turn: nat, prompt: string, messages: seq<Message>, runs: seq<RunRecord>)

  /** `busy` holds the processes whose busy set has the session, each with the turn it is
    * for. `orphans` are admissions still to come of turns whose request was dropped.
    *
    * The rest is history: the prompts admitted; whether, since the last of them, a process
    * died between recording a run or its interruption and clearing its journal, or the
    * editor recorded a run over another's journal; whether an orphan's prompt was
    * admitted since the last turn with a lease was; what every turn asked for; where each
    * refused turn was refused; and the turns dropped by processes still alive. */
  datatype World = World(
    saved: Option<Saved>, busy: map<nat, nat>, lease: Option<nat>, turns: map<nat, Turn>, journal: Option<Journal>,
    orphans: map<nat, Turn>,
    asked: seq<Asked>, torn: bool, intruded: bool,
    requests: map<nat, Request>, refused: map<nat, Phase>, abandoned: map<nat, nat>)

  /** What a turn does on its way, besides being admitted; `ok` says whether the store
    * succeeds. */
  datatype Move =
    | Lease(ok: bool) | Recover(ok: bool) | Erase | Start(allowed: bool) | WriteJournal(run: string, ok: bool)
    | Record(finished: bool, events: seq<Event>, stop: string, ok: bool)
    | ClearJournal | DropLease

  datatype Step =
    | Enter(turn: nat, process: nat, request: Request)
    | Go(turn: nat, move: Move)
    | Admit(turn: nat, title: string, ok: bool)
    | Leave(turn: nat)
    | Abandon(turn: nat)
    | Detached(turn: nat, title: string, ok: bool)
    | Rename(process: nat, title: string, pinned: bool, held: bool)
    | Delete(process: nat)
    | Crash(process: nat)

  function Created(profile: string, title: string): World {
    World(Some(Saved(profile, title, false, [], [])), map[], None, map[], None, map[], [], false, false, map[], map[], map[])
  }

  predicate Is(w: World, turn: nat, phase: Phase) {
    turn in w.turns && w.turns[turn].phase == phase
  }

  /** Where the request waits while it holds a busy entry: for its admission, for the
    * manager to start its run, and for the busy set after a refused start. */
  predicate Droppable(phase: Phase) {
    phase.Admitting? || phase.Starting? || phase.Relocking?
  }

  predicate CanGo(phase: Phase, move: Move) {
    match move
    case Lease(_) => phase.Leasing?
    case Recover(_) => phase.Recovering?
    case Erase => phase.Erasing?
    case Start(_) => phase.Starting?
    case WriteJournal(_, _) => phase.Journaling?
    case Record(_, _, _, _) => phase.Executing?
    case ClearJournal => phase.Recording?
    case DropLease => phase.Closing? || phase.Denied?
  }

  predicate Possible(w: World, step: Step) {
    match step
    case Enter(turn, process, request) => turn !in w.requests && process !in w.busy && (request.editor ==> request.replacing.None?)
    case Go(turn, move) => turn in w.turns && CanGo(w.turns[turn].phase, move)
    case Admit(turn, _, _) => Is(w, turn, Admitting)
    case Leave(turn) => Is(w, turn, Unleased) || Is(w, turn, Relocking)
    case Abandon(turn) => turn in w.turns && Droppable(w.turns[turn].phase) && !w.turns[turn].request.editor
    case Detached(turn, _, _) => turn in w.orphans
    // Changing or deleting a session looks at this process's busy set only; a change whose
    // own request was dropped no longer holds that set.
    case Rename(process, _, _, held) => held ==> process !in w.busy
    case Delete(process) => process !in w.busy
    case Crash(_) => true
  }

  function PhaseAfter(lease: Option<nat>, editor: bool, phase: Phase, move: Move): Phase {
    match move
    case Lease(ok) => if !ok || lease.Some? then Unleased else if editor then Admitting else Recovering
    case Recover(ok) => if ok then Erasing else Admitting
    case Erase => Admitting
    case Start(allowed) => if allowed then Journaling else Denied
    case WriteJournal(_, _) => Executing
    case Record(_, _, _, _) => if editor then Closing else Recording
    case ClearJournal => Closing
    case DropLease => if phase.Denied? then Relocking else Unleased
  }

  function LeaseAfter(lease: Option<nat>, turn: nat, move: Move): Option<nat> {
    match move
    case Lease(ok) => if ok && lease.None? then Some(turn) else lease
    case DropLease => None
    case _ => lease
  }

  /** A turn some process ended before recording it is recorded as interrupted, unless it
    * was to replace an answer; its journal is erased after that. */
  function Recovered(saved: Option<Saved>, journal: Option<Journal>): Option<Saved> {
    if journal.None? || journal.value.replacing || saved.None? then saved
    else Some(saved.value.(runs := saved.value.runs + [RunRecord(journal.value.run, Some(INTERRUPTED), [])]))
  }

  function Kept(saved: Option<Saved>, request: Request, finished: bool, events: seq<Event>, stop: string): Option<Saved> {
    if saved.None? then None
    else
      match request.replacing
      case None => Some(Recorded(saved.value, events, stop))
      case Some(run) => Some(Exchanged(saved.value, run, finished, events, stop))
  }

  function SavedAfter(saved: Option<Saved>, journal: Option<Journal>, request: Request, move: Move): Option<Saved> {
    match move
    case Recover(ok) => if ok then Recovered(saved, journal) else saved
    case Record(finished, events, stop, ok) => if ok then Kept(saved, request, finished, events, stop) else saved
    case _ => saved
  }

  function JournalAfter(journal: Option<Journal>, request: Request, move: Move): Option<Journal> {
    match move
    case Erase => None
    case WriteJournal(run, ok) => if ok then Some(Journal(run, request.replacing.Some?)) else journal
    case ClearJournal => None
    case _ => journal
  }

  /** Whether going from `phase` to `next` refuses the turn. */
  predicate Refuses(phase: Phase, next: Phase) {
    (phase.Leasing? && next.Unleased?) || (phase.Starting? && next.Denied?)
  }

  /** The journal of an appended run is still to be recovered from. */
  predicate LeftOver(journal: Option<Journal>) {
    journal.Some? && !journal.value.replacing
  }

  function Gone(w: World, turn: nat, move: Move): World
    requires turn in w.turns
  {
    var t := w.turns[turn];
    var next := PhaseAfter(w.lease, t.request.editor, t.phase, move);
    w.(turns := w.turns[turn := t.(phase := next)], lease := LeaseAfter(w.lease, turn, move),
       saved := SavedAfter(w.saved, w.journal, t.request, move), journal := JournalAfter(w.journal, t.request, move),
       refused := if Refuses(t.phase, next) then w.refused[turn := t.phase] else w.refused,
       torn := w.torn || (move.Record? && t.request.editor && LeftOver(w.journal)))
  }

  function Tried(w: World, r: Request, title: string, ok: bool): Admission {
    SessionData.Admit(w.saved, r.expected, r.named, r.message, title, r.replacing, r.limit, ok)
  }

  /** The prompt of `turn` is saved. */
  function Prompted(w: World, turn: nat, prompt: string, view: View, saved: Saved): World {
    w.(saved := Some(saved), torn := false, asked := w.asked + [Asked(turn, prompt, view.messages, view.runs)])
  }

  /** The admission of `turn` answers `a`. */
  function Answering(w: World, turn: nat, a: Admission): World
    requires turn in w.turns
  {
    var r := w.turns[turn].request;
    match a
    case Refused(_) =>
      w.(turns := w.turns[turn := w.turns[turn].(phase := Closing)], refused := w.refused[turn := Admitting])
    case Admitted(view, saved) =>
      var x := if r.replacing.Some? then w else Prompted(w, turn, r.message, view, saved);
      var at := if x.asked == [] then 0 else |x.asked| - 1;
      x.(intruded := false,
         turns := w.turns[turn := w.turns[turn].(phase := if r.editor then Executing else Starting, view := Some(view), at := at, torn := x.torn)])
  }

  /** A dropped request's admission still runs to its end, without a lease; of a
    * regeneration it only reads. */
  function Intruding(w: World, turn: nat, a: Admission): World
    requires turn in w.orphans
  {
    var r := w.orphans[turn].request;
    var x := w.(orphans := w.orphans - {turn});
    match a
    case Refused(_) => x
    case Admitted(view, saved) =>
      if r.replacing.Some? then x else Prompted(x, turn, r.message, view, saved).(intruded := true)
  }

  /** The request of `turn` is dropped where it waits: its lease goes with it, its busy
    * entry does not. */
  function Abandoned(w: World, turn: nat): World
    requires turn in w.turns
  {
    var t := w.turns[turn];
    w.(turns := w.turns - {turn}, lease := if w.lease == Some(turn) then None else w.lease,
       orphans := if t.phase.Admitting? then w.orphans[turn := t] else w.orphans,
       abandoned := w.abandoned[turn := t.process])
  }

  /** What the journal is of has been recorded, and the journal is next to go. */
  predicate Clearing(w: World, turn: nat) {
    Is(w, turn, Recording) || Is(w, turn, Erasing)
  }

  /** The turn of process `p` at the moment it has recorded its run, or the interruption of
    * another, and not yet cleared that run's journal. */
  predicate Tearing(w: World, p: nat) {
    && LeftOver(w.journal)
    && w.lease.Some? && Clearing(w, w.lease.value) && w.turns[w.lease.value].process == p
  }

  function Crashed(w: World, p: nat): World {
    var turns := map t | t in w.turns && w.turns[t].process != p :: w.turns[t];
    w.(turns := turns, busy := w.busy - {p}, torn := w.torn || Tearing(w, p),
       lease := if w.lease.Some? && w.lease.value in turns then w.lease else None,
       orphans := map t | t in w.orphans && w.orphans[t].process != p :: w.orphans[t],
       abandoned := map t | t in w.abandoned && w.abandoned[t] != p :: w.abandoned[t])
  }

  function Entering(w: World, turn: nat, process: nat, request: Request): World {
    w.(busy := w.busy[process := turn], turns := w.turns[turn := Turn(process, request, Leasing, None, 0, false)],
       requests := w.requests[turn := request])
  }

  function Leaving(w: World, turn: nat): World
    requires turn in w.turns
  {
    w.(turns := w.turns - {turn}, busy := w.busy - {w.turns[turn].process})
  }

  function Renamed(saved: Option<Saved>, title: string, pinned: bool): Option<Saved> {
    if saved.None? then None else Some(saved.value.(title := title, pinned := pinned))
  }

  function Apply(w: World, step: Step): World {
    if !Possible(w, step) then w else
    match step
    case Enter(turn, process, request) => Entering(w, turn, process, request)
    case Go(turn, move) => Gone(w, turn, move)
    case Admit(turn, title, ok) => Answering(w, turn, Tried(w, w.turns[turn].request, title, ok))
    case Leave(turn) => Leaving(w, turn)
    case Abandon(turn) => Abandoned(w, turn)
    case Detached(turn, title, ok) => Intruding(w, turn, Tried(w, w.orphans[turn].request, title, ok))
    case Rename(_, title, pinned, _) => w.(saved := Renamed(w.saved, title, pinned))
    case Delete(_) => w.(saved := None)
    case Crash(p) => Crashed(w, p)
  }

  function Run(w: World, steps: seq<Step>): World
    decreases |steps|
  {
    if steps == [] then w else Run(Apply(w, steps[0]), steps[1..])
  }

  // ---------------------------------------------------------------- one turn at a time

  predicate Holds(phase: Phase) {
    !phase.Leasing? && !phase.Unleased? && !phase.Relocking?
  }

  /** The turn the lease is for is the one turn in a phase that holds it. */
  ghost predicate Leased(w: World) {
    && (w.lease.Some? ==> w.lease.value in w.turns)
    && forall t | t in w.turns :: Holds(w.turns[t].phase) <==> w.lease == Some(t)
  }

  /** Busy entries are in step with turns, one of each per process, or are left behind by
    * an abandoned turn. */
  ghost predicate Entered(w: World) {
    && (forall p | p in w.busy ::
          if w.busy[p] in w.turns then w.turns[w.busy[p]].process == p
          else w.busy[p] in w.abandoned && w.abandoned[w.busy[p]] == p)
    && (forall t | t in w.turns :: w.turns[t].process in w.busy && w.busy[w.turns[t].process] == t)
    && (forall t | t in w.abandoned :: t !in w.turns && w.abandoned[t] in w.busy && w.busy[w.abandoned[t]] == t)
    && (forall t | t in w.turns :: t in w.requests)
    && (forall t | t in w.abandoned :: t in w.requests)
  }

  lemma GoLeases(w: World, turn: nat, move: Move)
    requires Leased(w) && turn in w.turns && CanGo(w.turns[turn].phase, move)
    ensures Leased(Gone(w, turn, move))
  {
  }

  lemma AnsweringMoves(w: World, turn: nat, a: Admission)
    requires turn in w.turns
    ensures var x := Answering(w, turn, a);
            && x.busy == w.busy && x.abandoned == w.abandoned && x.requests == w.requests && x.orphans == w.orphans
            && x.lease == w.lease
            && turn in x.turns && x.turns == w.turns[turn := x.turns[turn]]
            && x.turns[turn].process == w.turns[turn].process && x.turns[turn].request == w.turns[turn].request
            && (x.turns[turn].phase.Closing? || x.turns[turn].phase.Starting? || x.turns[turn].phase.Executing?)
  {
  }

  lemma IntrudingMoves(w: World, turn: nat, a: Admission)
    requires turn in w.orphans
    ensures var x := Intruding(w, turn, a);
            && x.busy == w.busy && x.abandoned == w.abandoned && x.requests == w.requests
            && x.lease == w.lease && x.turns == w.turns && x.refused == w.refused
  {
  }

  lemma EndLeases(w: World, step: Step)
    requires Leased(w) && Possible(w, step) && (step.Leave? || step.Abandon? || step.Crash?)
    ensures Leased(Apply(w, step))
  {
    match step {
      case Leave(turn) => assert Leased(Leaving(w, turn));
      case Abandon(turn) => assert Leased(Abandoned(w, turn));
      case Crash(p) => assert Leased(Crashed(w, p));
    }
  }

  lemma AdmissionLeases(w: World, turn: nat, a: Admission)
    requires Leased(w) && Is(w, turn, Admitting)
    ensures Leased(Answering(w, turn, a))
  {
    AnsweringMoves(w, turn, a);
  }

  lemma IntrusionLeases(w: World, turn: nat, a: Admission)
    requires Leased(w) && turn in w.orphans
    ensures Leased(Intruding(w, turn, a))
  {
    IntrudingMoves(w, turn, a);
  }

  lemma EnterLeases(w: World, turn: nat, process: nat, request: Request)
    requires Leased(w) && Entered(w) && turn !in w.requests
    ensures Leased(Entering(w, turn, process, request))
  {
    assert turn !in w.turns;
  }

  lemma LeasedStep(w: World, step: Step)
    requires Leased(w) && Entered(w)
    ensures Leased(Apply(w, step))
  {
    if Possible(w, step) {
      match step {
        case Go(turn, move) => GoLeases(w, turn, move);
        case Admit(turn, title, ok) => AdmissionLeases(w, turn, Tried(w, w.turns[turn].request, title, ok));
        case Detached(turn, title, ok) => IntrusionLeases(w, turn, Tried(w, w.orphans[turn].request, title, ok));
        case Enter(turn, process, request) => EnterLeases(w, turn, process, request);
        case Rename(_, _, _, _) =>
        case Delete(_) =>
        case _ => EndLeases(w, step);
      }
    }
  }

  lemma MovedKeepsEntered(w: World, x: World)
    requires Entered(w)
    requires x.busy == w.busy && x.turns.Keys == w.turns.Keys && x.abandoned == w.abandoned && x.requests == w.requests
    requires forall t | t in w.turns :: x.turns[t].process == w.turns[t].process
    ensures Entered(x)
  {
  }

  lemma EnterKeepsEntered(w: World, turn: nat, process: nat, request: Request)
    requires Entered(w) && turn !in w.requests && process !in w.busy
    ensures Entered(Entering(w, turn, process, request))
  {
    assert turn !in w.turns && turn !in w.abandoned;
    forall p | p in w.busy
      ensures w.busy[p] != turn
    {
    }
  }

  lemma LeaveKeepsEntered(w: World, turn: nat)
    requires Entered(w) && turn in w.turns
    ensures Entered(Leaving(w, turn))
  {
  }

  lemma AbandonKeepsEntered(w: World, turn: nat)
    requires Entered(w) && turn in w.turns
    ensures Entered(Abandoned(w, turn))
  {
  }

  lemma CrashKeepsEntered(w: World, p: nat)
    requires Entered(w)
    ensures Entered(Crashed(w, p))
  {
  }

  lemma EnteredStep(w: World, step: Step)
    requires Entered(w)
    ensures Entered(Apply(w, step))
  {
    if Possible(w, step) {
      match step {
        case Enter(turn, process, request) => EnterKeepsEntered(w, turn, process, request);
        case Leave(turn) => LeaveKeepsEntered(w, turn);
        case Abandon(turn) => AbandonKeepsEntered(w, turn);
        case Crash(p) => CrashKeepsEntered(w, p);
        case Admit(turn, title, ok) =>
          var a := Tried(w, w.turns[turn].request, title, ok);
          AnsweringMoves(w, turn, a);
          MovedKeepsEntered(w, Answering(w, turn, a));
        case Detached(turn, title, ok) =>
          var a := Tried(w, w.orphans[turn].request, title, ok);
          IntrudingMoves(w, turn, a);
          MovedKeepsEntered(w, Intruding(w, turn, a));
        case _ => MovedKeepsEntered(w, Apply(w, step));
      }
    }
  }

  lemma {:induction false} HeldRun(w: World, steps: seq<Step>)
    requires Leased(w) && Entered(w)
    ensures Leased(Run(w, steps)) && Entered(Run(w, steps))
    decreases |steps|
  {
    if steps != [] {
      LeasedStep(w, steps[0]);
      EnteredStep(w, steps[0]);
      HeldRun(Apply(w, steps[0]), steps[1..]);
    }
  }

  /** Over all processes, at most one turn at a time is between taking the lease and giving
    * it up, so at most one runs; and it always has its own process's busy entry. */
  lemma OneTurnAtATime(profile: string, title: string, steps: seq<Step>, t: nat, u: nat)
    ensures var w := Run(Created(profile, title), steps);
            && (t in w.turns && u in w.turns && Holds(w.turns[t].phase) && Holds(w.turns[u].phase) ==> t == u)
            && (w.lease == Some(t) ==> t in w.turns && w.turns[t].process in w.busy && w.busy[w.turns[t].process] == t)
  {
    HeldRun(Created(profile, title), steps);
  }

  /** Because the lease goes first, a session that is free in a process is not leased by
    * that process. */
  lemma FreeHereIsNotLeasedHere(profile: string, title: string, steps: seq<Step>, p: nat)
    ensures var w := Run(Created(profile, title), steps);
            p !in w.busy && w.lease.Some? ==> w.lease.value in w.turns && w.turns[w.lease.value].process != p
  {
    HeldRun(Created(profile, title), steps);
  }

  // ---------------------------------------------------------------- every exit

  /** How far a turn still is from being gone. */
  function Left(phase: Phase): nat {
    match phase
    case Leasing => 10
    case Recovering => 9
    case Erasing => 8
    case Admitting => 7
    case Starting => 6
    case Journaling => 5
    case Executing => 4
    case Recording => 3
    case Closing => 2
    case Denied => 2
    case Unleased => 1
    case Relocking => 1
  }

  predicate Own(step: Step, turn: nat) {
    match step
    case Go(t, _) => t == turn
    case Admit(t, _, _) => t == turn
    case Leave(t) => t == turn
    case Abandon(t) => t == turn
    case _ => false
  }

  lemma GoGetsCloser(w: World, turn: nat, move: Move)
    requires turn in w.turns && CanGo(w.turns[turn].phase, move)
    ensures var x := Gone(w, turn, move);
            turn in x.turns && Left(x.turns[turn].phase) < Left(w.turns[turn].phase)
  {
  }

  lemma AdmissionGetsCloser(w: World, turn: nat, a: Admission)
    requires Is(w, turn, Admitting)
    ensures var x := Answering(w, turn, a);
            turn in x.turns && Left(x.turns[turn].phase) < Left(w.turns[turn].phase)
  {
    AnsweringMoves(w, turn, a);
  }

  lemma EndGetsThere(w: World, turn: nat, step: Step)
    requires Leased(w) && Entered(w)
    requires turn in w.turns && (step == Leave(turn) || step == Abandon(turn)) && Possible(w, step)
    ensures var x := Apply(w, step);
            turn !in x.turns && x.lease != Some(turn) && (w.turns[turn].process in x.busy <==> step.Abandon?)
  {
    if step.Leave? {
      assert w.lease != Some(turn);
    } else {
      assert w.turns[turn].process in w.busy;
    }
  }

  lemma StepGetsCloser(w: World, turn: nat, step: Step)
    requires Leased(w) && Entered(w)
    requires turn in w.turns && Own(step, turn) && Possible(w, step)
    ensures var x := Apply(w, step);
            if turn in x.turns then Left(x.turns[turn].phase) < Left(w.turns[turn].phase)
            else x.lease != Some(turn) && (w.turns[turn].process in x.busy <==> step.Abandon?)
  {
    match step {
      case Go(_, move) => GoGetsCloser(w, turn, move);
      case Admit(_, title, ok) => AdmissionGetsCloser(w, turn, Tried(w, w.turns[turn].request, title, ok));
      case _ => EndGetsThere(w, turn, step);
    }
  }

  /** Whatever a turn's steps answer, each brings it closer to being gone, it always has a
    * next one that is not its request being dropped, and once gone it has no lease; its
    * process is free then, unless and only unless its request was dropped while it waited
    * for its admission, for its run to start or for the busy set after a refused start. */
  lemma EveryExitReleases(profile: string, title: string, steps: seq<Step>, turn: nat, step: Step)
    ensures var w := Run(Created(profile, title), steps);
            turn in w.turns ==>
              && (Own(step, turn) && Possible(w, step) ==>
                    var x := Apply(w, step);
                    if turn in x.turns then Left(x.turns[turn].phase) < Left(w.turns[turn].phase)
                    else x.lease != Some(turn) && (w.turns[turn].process in x.busy <==> step.Abandon?))
              && (Possible(w, Abandon(turn)) <==> Droppable(w.turns[turn].phase) && !w.turns[turn].request.editor)
              && exists next :: Own(next, turn) && Possible(w, next) && !next.Abandon?
  {
    HeldRun(Created(profile, title), steps);
    var w := Run(Created(profile, title), steps);
    if turn in w.turns {
      HasNext(w, turn);
      if Own(step, turn) && Possible(w, step) {
        StepGetsCloser(w, turn, step);
      }
    }
  }

  lemma HasNext(w: World, turn: nat)
    requires turn in w.turns
    ensures exists next :: Own(next, turn) && Possible(w, next) && !next.Abandon?
  {
    var next := match w.turns[turn].phase
      case Leasing => Go(turn, Lease(true))
      case Recovering => Go(turn, Recover(true))
      case Erasing => Go(turn, Erase)
      case Admitting => Admit(turn, "", true)
      case Starting => Go(turn, Start(true))
      case Journaling => Go(turn, WriteJournal("", true))
      case Executing => Go(turn, Record(true, [], "", true))
      case Recording => Go(turn, ClearJournal)
      case Closing => Go(turn, DropLease)
      case Denied => Go(turn, DropLease)
      case Unleased => Leave(turn)
      case Relocking => Leave(turn);
    assert Own(next, turn) && Possible(w, next) && !next.Abandon?;
  }

  /** A busy entry outlives its turn exactly when that turn was abandoned, and its process
    * is still alive. */
  lemma LeftBehindExactlyWhenAbandoned(profile: string, title: string, steps: seq<Step>, turn: nat)
    ensures var w := Run(Created(profile, title), steps);
            (turn !in w.turns && exists p :: p in w.busy && w.busy[p] == turn) <==> turn in w.abandoned
  {
    HeldRun(Created(profile, title), steps);
    var w := Run(Created(profile, title), steps);
    if turn in w.abandoned {
      assert w.abandoned[turn] in w.busy && w.busy[w.abandoned[turn]] == turn;
    }
  }

  /** An entry left behind stays until its process ends: meanwhile the process takes no
    * turn on the session, and can neither change nor delete it. */
  lemma {:induction false} AbandonedEntryStays(w: World, steps: seq<Step>, p: nat, turn: nat, request: Request, title: string, pinned: bool)
    requires Entered(w) && turn in w.abandoned && w.abandoned[turn] == p
    requires forall s | s in steps :: s != Crash(p)
    ensures var x := Run(w, steps);
            && turn in x.abandoned && x.abandoned[turn] == p && p in x.busy && x.busy[p] == turn
            && (forall t :: !Possible(x, Enter(t, p, request)))
            && !Possible(x, Delete(p)) && !Possible(x, Rename(p, title, pinned, true))
    decreases |steps|
  {
    if steps != [] {
      assert steps[0] in steps;
      EnteredStep(w, steps[0]);
      OneStepLater(w, steps[0], p, turn);
      assert forall s | s in steps[1..] :: s in steps;
      AbandonedEntryStays(Apply(w, steps[0]), steps[1..], p, turn, request, title, pinned);
    }
  }

  lemma OneStepLater(w: World, step: Step, p: nat, turn: nat)
    requires Entered(w) && turn in w.abandoned && w.abandoned[turn] == p && step != Crash(p)
    ensures var x := Apply(w, step); turn in x.abandoned && x.abandoned[turn] == p
  {
    if Possible(w, step) {
      match step {
        case Admit(t, title, ok) => AnsweringMoves(w, t, Tried(w, w.turns[t].request, title, ok));
        case Detached(t, title, ok) => IntrudingMoves(w, t, Tried(w, w.orphans[t].request, title, ok));
        case _ =>
      }
    }
  }

  const DROPPED_REQUEST := Request(None, "a", "p", None, 0, false)

  const DROPPED := [Enter(1, 1, DROPPED_REQUEST), Go(1, Lease(true)), Go(1, Recover(true)), Go(1, Erase), Abandon(1)]

  lemma Unroll3(w: World, a: Step, b: Step, c: Step)
    ensures Run(w, [a, b, c]) == Apply(Apply(Apply(w, a), b), c)
  {
    assert [a, b, c][1..] == [b, c] && [b, c][1..] == [c] && [c][1..] == [];
    var w1 := Apply(w, a);
    assert Run(w, [a, b, c]) == Run(w1, [b, c]) == Run(Apply(w1, b), [c]) == Run(Apply(Apply(w1, b), c), []);
  }

  lemma Unroll4(w: World, a: Step, b: Step, c: Step, d: Step)
    ensures Run(w, [a, b, c, d]) == Apply(Apply(Apply(Apply(w, a), b), c), d)
  {
    assert [a, b, c, d][1..] == [b, c, d];
    Unroll3(Apply(w, a), b, c, d);
  }

  lemma RequestIsDropped()
    ensures var w := Run(Created("p", "x"), DROPPED);
            && w.lease.None? && w.turns == map[] && w.busy == map[1 := 1] && w.abandoned == map[1 := 1]
            && w.saved == Created("p", "x").saved && w.asked == [] && w.journal.None?
            && w.orphans == map[1 := Turn(1, DROPPED_REQUEST, Admitting, None, 0, false)]
            && w.requests == map[1 := DROPPED_REQUEST] && w.refused == map[] && !w.torn && !w.intruded
  {
    var w0 := Created("p", "x");
    Unroll5(w0, DROPPED[0], DROPPED[1], DROPPED[2], DROPPED[3], DROPPED[4]);
    var w3 := Apply(Apply(Apply(w0, DROPPED[0]), DROPPED[1]), DROPPED[2]);
    assert w3.turns == map[1 := Turn(1, DROPPED_REQUEST, Erasing, None, 0, false)];
    var w4 := Apply(w3, DROPPED[3]);
    assert w4.turns == map[1 := Turn(1, DROPPED_REQUEST, Admitting, None, 0, false)];
    assert Apply(w4, DROPPED[4]).turns == map[];
  }

  /** The exception is real: here a client goes away while its prompt is being admitted, and
    * the session stays busy in that process whatever happens afterwards, though nothing
    * runs on it. */
  lemma DroppedRequestBlocksItsProcess(steps: seq<Step>, request: Request)
    requires forall s | s in steps :: s != Crash(1)
    ensures var w := Run(Run(Created("p", "x"), DROPPED), steps);
            && 1 !in w.turns && 1 in w.busy && w.busy[1] == 1
            && forall t :: !Possible(w, Enter(t, 1, request))
  {
    RequestIsDropped();
    HeldRun(Created("p", "x"), DROPPED);
    AbandonedEntryStays(Run(Created("p", "x"), DROPPED), steps, 1, 1, request, "", false);
    HeldRun(Run(Created("p", "x"), DROPPED), steps);
  }

  // ---------------------------------------------------------------- the prompts

  function Prompts(asked: seq<Asked>): seq<string> {
    if asked == [] then [] else Prompts(asked[..|asked| - 1]) + [asked[|asked| - 1].prompt]
  }

  lemma {:induction false} PromptsInPlace(asked: seq<Asked>, i: nat)
    requires i < |asked|
    ensures |Prompts(asked)| == |asked| && Prompts(asked)[i] == asked[i].prompt
    decreases |asked|
  {
    var n := |asked| - 1;
    if n > 0 {
      PromptsInPlace(asked[..n], if i < n then i else 0);
    }
  }

  predicate Told(w: World) {
    w.saved.Some? ==> Users(w.saved.value.messages) == Prompts(w.asked)
  }

  /** What a successful admission tells about the messages it saves. */
  predicate Adds(w: World, r: Request, a: Admission) {
    a.Admitted? ==>
      && w.saved.Some?
      && Users(a.saved.messages) == Users(w.saved.value.messages) + (if r.replacing.None? then [r.message] else [])
  }

  lemma TriedAdds(w: World, r: Request, title: string, ok: bool)
    ensures Adds(w, r, Tried(w, r, title, ok))
  {
    AdmissionAddsThePrompt(w.saved, r.expected, r.named, r.message, title, r.replacing, r.limit, ok);
  }

  lemma PromptsAppend(asked: seq<Asked>, a: Asked)
    ensures Prompts(asked + [a]) == Prompts(asked) + [a.prompt]
  {
    assert (asked + [a])[..|asked|] == asked;
  }

  lemma AnsweringTells(w: World, turn: nat, a: Admission)
    requires Told(w) && turn in w.turns && Adds(w, w.turns[turn].request, a)
    ensures Told(Answering(w, turn, a))
  {
    if a.Admitted? {
      PromptsAppend(w.asked, Asked(turn, w.turns[turn].request.message, a.view.messages, a.view.runs));
    }
  }

  lemma IntrudingTells(w: World, turn: nat, a: Admission)
    requires Told(w) && turn in w.orphans && Adds(w, w.orphans[turn].request, a)
    ensures Told(Intruding(w, turn, a))
  {
    if a.Admitted? {
      PromptsAppend(w.asked, Asked(turn, w.orphans[turn].request.message, a.view.messages, a.view.runs));
    }
  }

  lemma GoTells(w: World, turn: nat, move: Move)
    requires Told(w) && turn in w.turns
    ensures Told(Gone(w, turn, move))
  {
    if w.saved.Some? && move.Record? {
      var old_ := w.turns[turn].request.replacing;
      RecordingKeepsPrompts(w.saved.value, if old_.Some? then old_.value else "", move.finished, move.events, move.stop);
    }
  }

  lemma ToldStep(w: World, step: Step)
    requires Told(w)
    ensures Told(Apply(w, step))
  {
    if Possible(w, step) {
      match step {
        case Admit(turn, title, ok) =>
          var r := w.turns[turn].request;
          TriedAdds(w, r, title, ok);
          AnsweringTells(w, turn, Tried(w, r, title, ok));
        case Detached(turn, title, ok) =>
          var r := w.orphans[turn].request;
          TriedAdds(w, r, title, ok);
          IntrudingTells(w, turn, Tried(w, r, title, ok));
        case Go(turn, move) => GoTells(w, turn, move);
        case _ =>
      }
    }
  }

  lemma {:induction false} ToldRun(w: World, steps: seq<Step>)
    requires Told(w)
    ensures Told(Run(w, steps))
    decreases |steps|
  {
    if steps != [] {
      ToldStep(w, steps[0]);
      ToldRun(Apply(w, steps[0]), steps[1..]);
    }
  }

  /** Over every run of all processes, a session's user messages are exactly the prompts
    * admitted to it, in the order they were admitted, until it is deleted; those of dropped
    * requests are among them. */
  lemma PromptsAreTheAdmittedOnes(profile: string, title: string, steps: seq<Step>)
    ensures var w := Run(Created(profile, title), steps);
            w.saved.Some? ==> Users(w.saved.value.messages) == Prompts(w.asked)
  {
    ToldRun(Created(profile, title), steps);
  }

  // ---------------------------------------------------------------- refusals

  /** The prompt of turn `t` was admitted. */
  predicate Has(asked: seq<Asked>, t: nat) {
    exists i | 0 <= i < |asked| :: asked[i].turn == t
  }

  predicate Ended(phase: Phase) {
    phase.Closing? || phase.Unleased? || phase.Denied? || phase.Relocking?
  }

  predicate Early(phase: Phase) {
    phase.Leasing? || phase.Recovering? || phase.Erasing? || phase.Admitting?
  }

  /** A turn has a view exactly from its admission on. */
  predicate TurnTraced(t: nat, turn: Turn, asked: seq<Asked>, requests: map<nat, Request>, refused: map<nat, Phase>) {
    && t in requests && requests[t] == turn.request
    && (Early(turn.phase) ==> turn.view.None?)
    && (!Early(turn.phase) && !Ended(turn.phase) ==> turn.view.Some?)
    && (Has(asked, t) <==> turn.view.Some? && turn.request.replacing.None?)
    && (t in refused ==> Ended(turn.phase))
  }

  predicate OrphanTraced(t: nat, turn: Turn, asked: seq<Asked>, requests: map<nat, Request>, refused: map<nat, Phase>) {
    t in requests && requests[t] == turn.request && !Has(asked, t) && t !in refused
  }

  predicate RefusalTraced(t: nat, asked: seq<Asked>, requests: map<nat, Request>, refused: map<nat, Phase>)
    requires t in refused
  {
    t in requests && (Has(asked, t) <==> refused[t].Starting? && requests[t].replacing.None?)
  }

  predicate AskedTraced(asked: seq<Asked>, requests: map<nat, Request>) {
    forall i | 0 <= i < |asked| ::
      asked[i].turn in requests && requests[asked[i].turn].replacing.None? && asked[i].prompt == requests[asked[i].turn].message
  }

  predicate Traced(w: World) {
    && (forall t | t in w.turns :: TurnTraced(t, w.turns[t], w.asked, w.requests, w.refused))
    && (forall t | t in w.orphans :: t !in w.turns && OrphanTraced(t, w.orphans[t], w.asked, w.requests, w.refused))
    && (forall t | t in w.refused :: RefusalTraced(t, w.asked, w.requests, w.refused))
    && AskedTraced(w.asked, w.requests)
  }

  lemma HasAppend(asked: seq<Asked>, a: Asked, t: nat)
    ensures Has(asked + [a], t) <==> Has(asked, t) || t == a.turn
  {
    var more := asked + [a];
    assert more[|asked|] == a;
    if i :| 0 <= i < |asked| && asked[i].turn == t {
      assert more[i].turn == t;
    }
    if i :| 0 <= i < |more| && more[i].turn == t {
      assert i < |asked| ==> asked[i].turn == t;
    }
  }

  /** The turn `k` changes, and its prompt may have been admitted. */
  lemma OneTraced(w: World, x: World, k: nat)
    requires Traced(w) && k in w.turns && k in x.turns && x.turns == w.turns[k := x.turns[k]]
    requires x.orphans == w.orphans && x.requests == w.requests
    requires TurnTraced(k, x.turns[k], x.asked, x.requests, x.refused) && AskedTraced(x.asked, x.requests)
    requires forall t | t != k :: Has(x.asked, t) <==> Has(w.asked, t)
    requires x.refused == w.refused || (k in x.refused && x.refused == w.refused[k := x.refused[k]] && RefusalTraced(k, x.asked, x.requests, x.refused))
    requires k in w.refused ==> k in x.refused && RefusalTraced(k, x.asked, x.requests, x.refused)
    ensures Traced(x)
  {
  }

  lemma AnsweringHas(w: World, turn: nat, a: Admission, t: nat)
    requires turn in w.turns
    ensures Has(Answering(w, turn, a).asked, t) <==>
              Has(w.asked, t) || (t == turn && a.Admitted? && w.turns[turn].request.replacing.None?)
  {
    if a.Admitted? {
      HasAppend(w.asked, Asked(turn, w.turns[turn].request.message, a.view.messages, a.view.runs), t);
    }
  }

  lemma AnsweringTraced(w: World, turn: nat, a: Admission)
    requires Traced(w) && Is(w, turn, Admitting)
    ensures Traced(Answering(w, turn, a))
  {
    assert TurnTraced(turn, w.turns[turn], w.asked, w.requests, w.refused);
    AnsweringMoves(w, turn, a);
    AnsweringRefuses(w, turn, a);
    forall t: nat
      ensures Has(Answering(w, turn, a).asked, t) <==>
                Has(w.asked, t) || (t == turn && a.Admitted? && w.turns[turn].request.replacing.None?)
    {
      AnsweringHas(w, turn, a, t);
    }
    OneTraced(w, Answering(w, turn, a), turn);
  }

  /** An orphan is done with, and its prompt may have been admitted. */
  lemma OrphanTracedOut(w: World, x: World, k: nat)
    requires Traced(w) && k in w.orphans && x.orphans == w.orphans - {k}
    requires x.turns == w.turns && x.requests == w.requests && x.refused == w.refused && AskedTraced(x.asked, x.requests)
    requires forall t | t != k :: Has(x.asked, t) <==> Has(w.asked, t)
    ensures Traced(x)
  {
    assert OrphanTraced(k, w.orphans[k], w.asked, w.requests, w.refused);
  }

  lemma IntrudingTraced(w: World, turn: nat, a: Admission)
    requires Traced(w) && turn in w.orphans
    ensures Traced(Intruding(w, turn, a))
  {
    var r := w.orphans[turn].request;
    var x := Intruding(w, turn, a);
    IntrudingMoves(w, turn, a);
    LandedEntry(w, turn, a);
    assert OrphanTraced(turn, w.orphans[turn], w.asked, w.requests, w.refused);
    if x.asked != w.asked {
      var entry := x.asked[|w.asked|];
      forall t: nat
        ensures Has(x.asked, t) <==> Has(w.asked, t) || t == turn
      {
        HasAppend(w.asked, entry, t);
      }
    }
    OrphanTracedOut(w, x, turn);
  }

  lemma LandedEntry(w: World, turn: nat, a: Admission)
    requires turn in w.orphans
    ensures var x := Intruding(w, turn, a);
            && x.orphans == w.orphans - {turn}
            && (x.asked == w.asked
                || (|x.asked| == |w.asked| + 1 && x.asked == w.asked + [x.asked[|w.asked|]]
                    && x.asked[|w.asked|].turn == turn && x.asked[|w.asked|].prompt == w.orphans[turn].request.message
                    && w.orphans[turn].request.replacing.None?))
  {
  }

  lemma EnterTraced(w: World, turn: nat, process: nat, request: Request)
    requires Traced(w) && turn !in w.requests
    ensures Traced(Entering(w, turn, process, request))
  {
    assert !Has(w.asked, turn);
  }

  lemma GoTurnTraced(w: World, turn: nat, move: Move)
    requires turn in w.turns && CanGo(w.turns[turn].phase, move)
    requires TurnTraced(turn, w.turns[turn], w.asked, w.requests, w.refused)
    ensures var x := Gone(w, turn, move);
            && x.turns == w.turns[turn := x.turns[turn]] && x.asked == w.asked && x.orphans == w.orphans && x.requests == w.requests
            && TurnTraced(turn, x.turns[turn], x.asked, x.requests, x.refused)
            && (x.refused == w.refused
                || (turn in x.refused && x.refused == w.refused[turn := x.refused[turn]]
                    && RefusalTraced(turn, x.asked, x.requests, x.refused)))
  {
  }

  lemma GoTraced(w: World, turn: nat, move: Move)
    requires Traced(w) && turn in w.turns && CanGo(w.turns[turn].phase, move)
    ensures Traced(Gone(w, turn, move))
  {
    GoTurnTraced(w, turn, move);
    OneTraced(w, Gone(w, turn, move), turn);
  }

  // ---------------------------------------------------------------- crashes and other changes

  /** A crash takes all that its process had in memory, and the lease if it had it, but
    * nothing of another process and nothing saved. */
  lemma CrashTakesItsOwn(w: World, p: nat, t: nat, q: nat)
    requires Leased(w)
    ensures var x := Apply(w, Crash(p));
            && (t in x.turns <==> t in w.turns && w.turns[t].process != p) && (t in x.turns ==> x.turns[t] == w.turns[t])
            && (t in x.orphans <==> t in w.orphans && w.orphans[t].process != p) && (t in x.orphans ==> x.orphans[t] == w.orphans[t])
            && (q in x.busy <==> q in w.busy && q != p) && (q in x.busy ==> x.busy[q] == w.busy[q])
            && x.lease == (if w.lease.Some? && w.turns[w.lease.value].process != p then w.lease else None)
            && x.saved == w.saved && x.journal == w.journal && x.asked == w.asked
  {
  }

  /** A session is renamed and deleted by a process that runs no turn on it, or whose request
    * for it was dropped: only the title and the pin change, or everything goes. */
  lemma ChangesChangeOnlyThat(w: World, process: nat, title: string, pinned: bool, held: bool)
    ensures var x := Apply(w, Rename(process, title, pinned, held));
            if w.saved.Some? && (held ==> process !in w.busy)
            then x == w.(saved := Some(Saved(w.saved.value.profile, title, pinned, w.saved.value.messages, w.saved.value.runs)))
            else x == w
    ensures var x := Apply(w, Delete(process)); if process in w.busy then x == w else x.saved.None? && x == w.(saved := None)
  {
  }

  /** A record becomes a second one exactly in these ways: a process dies between recording
    * and erasing the journal, or the editor records a run over another's. */
  lemma TornExactly(w: World, step: Step)
    requires !w.torn
    ensures Apply(w, step).torn <==>
              || (step.Crash? && w.journal.Some? && !w.journal.value.replacing && w.lease.Some?
                  && (Is(w, w.lease.value, Recording) || Is(w, w.lease.value, Erasing)) && w.turns[w.lease.value].process == step.process)
              || (step.Go? && Is(w, step.turn, Executing) && step.move.Record? && w.turns[step.turn].request.editor
                  && w.journal.Some? && !w.journal.value.replacing)
  {
    match step {
      case Crash(p) => assert Apply(w, step).torn == Tearing(w, p);
      case Go(turn, move) => TornByMove(w, turn, move);
      case Admit(turn, title, ok) =>
        if Is(w, turn, Admitting) {
          AdmissionMends(w, turn, Tried(w, w.turns[turn].request, title, ok));
        }
      case Detached(turn, title, ok) =>
        if turn in w.orphans {
          OrphanMends(w, turn, Tried(w, w.orphans[turn].request, title, ok));
        }
      case _ =>
    }
  }

  lemma TornByMove(w: World, turn: nat, move: Move)
    requires !w.torn
    ensures Apply(w, Go(turn, move)).torn <==>
              Is(w, turn, Executing) && move.Record? && w.turns[turn].request.editor && LeftOver(w.journal)
  {
  }

  lemma AdmissionMends(w: World, turn: nat, a: Admission)
    requires !w.torn && turn in w.turns
    ensures !Answering(w, turn, a).torn
  {
  }

  lemma OrphanMends(w: World, turn: nat, a: Admission)
    requires !w.torn && turn in w.orphans
    ensures !Intruding(w, turn, a).torn
  {
  }

  /** A request that waits for the busy set had its run refused as it started; the recorder
    * of a run waits for nobody. */
  predicate RefusedAtStart(turn: nat, t: Turn, refused: map<nat, Phase>) {
    t.phase.Denied? || t.phase.Relocking? <==> turn in refused && refused[turn].Starting?
  }

  ghost predicate Refusing(w: World) {
    forall t | t in w.turns :: RefusedAtStart(t, w.turns[t], w.refused)
  }

  lemma AnsweringRefusing(w: World, turn: nat, a: Admission)
    requires Refusing(w) && Is(w, turn, Admitting)
    ensures Refusing(Answering(w, turn, a))
  {
    AnsweringMoves(w, turn, a);
    AnsweringRefuses(w, turn, a);
  }

  lemma IntrudingRefusing(w: World, turn: nat, a: Admission)
    requires Refusing(w) && turn in w.orphans
    ensures Refusing(Intruding(w, turn, a))
  {
    IntrudingMoves(w, turn, a);
  }

  lemma GoRefusing(w: World, turn: nat, move: Move)
    requires Refusing(w) && turn in w.turns && CanGo(w.turns[turn].phase, move)
    ensures Refusing(Gone(w, turn, move))
  {
    assert RefusedAtStart(turn, w.turns[turn], w.refused);
  }

  lemma RefusingStep(w: World, step: Step)
    requires Refusing(w) && forall t | t in w.refused :: t in w.requests
    ensures Refusing(Apply(w, step))
  {
    if Possible(w, step) {
      match step {
        case Go(turn, move) => GoRefusing(w, turn, move);
        case Admit(turn, title, ok) => AnsweringRefusing(w, turn, Tried(w, w.turns[turn].request, title, ok));
        case Detached(turn, title, ok) => IntrudingRefusing(w, turn, Tried(w, w.orphans[turn].request, title, ok));
        case _ =>
      }
    }
  }

  lemma {:induction false} RefusingRun(w: World, steps: seq<Step>)
    requires Traced(w) && Refusing(w)
    ensures Refusing(Run(w, steps))
    decreases |steps|
  {
    if steps != [] {
      TracedStep(w, steps[0]);
      forall t | t in w.refused
        ensures t in w.requests
      {
        assert RefusalTraced(t, w.asked, w.requests, w.refused);
      }
      RefusingStep(w, steps[0]);
      RefusingRun(Apply(w, steps[0]), steps[1..]);
    }
  }

  /** A request that can still be dropped waits for its admission or its run's start, or its
    * run was refused as it started: the recording of a run depends on no request. */
  lemma NoRunIsDropped(profile: string, title: string, steps: seq<Step>, turn: nat)
    ensures var w := Run(Created(profile, title), steps);
            Possible(w, Abandon(turn)) ==>
              Is(w, turn, Admitting) || Is(w, turn, Starting) || (turn in w.refused && w.refused[turn].Starting?)
  {
    RefusingRun(Created(profile, title), steps);
    var w := Run(Created(profile, title), steps);
    if turn in w.turns {
      assert RefusedAtStart(turn, w.turns[turn], w.refused);
    }
  }

  /** Turns and orphans end, or a turn becomes an orphan before its admission. */
  lemma EndTraced(w: World, x: World)
    requires Traced(w)
    requires forall t | t in x.turns :: t in w.turns && x.turns[t] == w.turns[t]
    requires forall t | t in x.orphans ::
               if t in w.orphans then x.orphans[t] == w.orphans[t]
               else t in w.turns && t !in x.turns && x.orphans[t] == w.turns[t] && w.turns[t].phase.Admitting?
    requires x.asked == w.asked && x.requests == w.requests && x.refused == w.refused
    ensures Traced(x)
  {
    forall t | t in x.orphans
      ensures t !in x.turns && OrphanTraced(t, x.orphans[t], x.asked, x.requests, x.refused)
    {
      if t in w.orphans {
        assert OrphanTraced(t, w.orphans[t], w.asked, w.requests, w.refused);
      } else {
        assert TurnTraced(t, w.turns[t], w.asked, w.requests, w.refused);
      }
    }
  }

  lemma TracedStep(w: World, step: Step)
    requires Traced(w)
    ensures Traced(Apply(w, step))
  {
    if Possible(w, step) {
      match step {
        case Enter(turn, process, request) => EnterTraced(w, turn, process, request);
        case Go(turn, move) => GoTraced(w, turn, move);
        case Admit(turn, title, ok) => AnsweringTraced(w, turn, Tried(w, w.turns[turn].request, title, ok));
        case Detached(turn, title, ok) => IntrudingTraced(w, turn, Tried(w, w.orphans[turn].request, title, ok));
        case Leave(turn) => EndTraced(w, Leaving(w, turn));
        case Abandon(turn) => EndTraced(w, Abandoned(w, turn));
        case Crash(p) => EndTraced(w, Crashed(w, p));
        case _ => EndTraced(w, Apply(w, step));
      }
    }
  }

  lemma {:induction false} TracedRun(w: World, steps: seq<Step>)
    requires Traced(w)
    ensures Traced(Run(w, steps))
    decreases |steps|
  {
    if steps != [] {
      TracedStep(w, steps[0]);
      TracedRun(Apply(w, steps[0]), steps[1..]);
    }
  }

  /** The prompt of a refused turn is saved exactly when the turn appends and was refused as
    * its run started, after its admission: refused for the lease, the session, its profile
    * or a stale answer it is never saved, neither then nor later. */
  lemma RefusedPromptsAreSavedExactly(profile: string, title: string, steps: seq<Step>, turn: nat)
    ensures var w := Run(Created(profile, title), steps);
            turn in w.refused ==>
              && turn in w.requests
              && (Has(w.asked, turn) <==> w.refused[turn].Starting? && w.requests[turn].replacing.None?)
              && (Has(w.asked, turn) && w.saved.Some? ==> w.requests[turn].message in Users(w.saved.value.messages))
  {
    TracedRun(Created(profile, title), steps);
    ToldRun(Created(profile, title), steps);
    var w := Run(Created(profile, title), steps);
    if turn in w.refused {
      assert RefusalTraced(turn, w.asked, w.requests, w.refused);
      if Has(w.asked, turn) {
        var i :| 0 <= i < |w.asked| && w.asked[i].turn == turn;
        PromptsInPlace(w.asked, i);
        assert w.asked[i].prompt == w.requests[turn].message;
      }
    }
  }

  /** The step that refuses a turn, wherever it does, leaves everything saved as it was. */
  lemma RefusalSavesNothing(w: World, turn: nat, step: Step)
    requires turn !in w.refused && turn in Apply(w, step).refused
    ensures var x := Apply(w, step);
            && x.saved == w.saved && x.asked == w.asked && x.journal == w.journal
            && (step.Go? || step.Admit?) && step.turn == turn
            && x.refused[turn] == w.turns[turn].phase
            && (w.turns[turn].phase.Leasing? || w.turns[turn].phase.Admitting? || w.turns[turn].phase.Starting?)
  {
    match step {
      case Go(t, move) =>
      case Admit(t, title, ok) => AnsweringRefuses(w, t, Tried(w, w.turns[t].request, title, ok));
      case Detached(t, title, ok) => IntrudingMoves(w, t, Tried(w, w.orphans[t].request, title, ok));
      case _ =>
    }
  }

  lemma AnsweringRefuses(w: World, turn: nat, a: Admission)
    requires turn in w.turns
    ensures var x := Answering(w, turn, a);
            if a.Admitted? then x.refused == w.refused
            else x.refused == w.refused[turn := Admitting] && x.saved == w.saved && x.asked == w.asked && x.journal == w.journal
  {
  }

  /** A prompt may be saved although its run is refused: the authorization is checked again
    * when the run starts, after the prompt was admitted. */
  lemma RefusedRunKeepsItsPrompt(prompt: string)
    ensures var request := Request(None, prompt, "p", None, 0, false);
            var steps := [Enter(1, 1, request), Go(1, Lease(true)), Go(1, Recover(true)), Go(1, Erase), Admit(1, "t", true), Go(1, Start(false))];
            var w := Run(Created("p", "x"), steps);
            && 1 in w.refused && w.refused[1].Starting?
            && w.saved.Some? && w.saved.value.messages == [Message(UserRole, prompt)]
            && w.saved.value.runs == []
  {
    var request := Request(None, prompt, "p", None, 0, false);
    Unroll6(Created("p", "x"), Enter(1, 1, request), Go(1, Lease(true)), Go(1, Recover(true)), Go(1, Erase), Admit(1, "t", true), Go(1, Start(false)));
    Arrives(Created("p", "x"), 1, 1, request);
    AdmittedThenRefused(Arrived(Created("p", "x"), 1, 1, request), prompt);
  }

  lemma AdmittedThenRefused(w: World, prompt: string)
    requires w.saved == Created("p", "x").saved && Is(w, 1, Admitting) && w.turns[1].request == Request(None, prompt, "p", None, 0, false)
    ensures var x := Apply(Apply(w, Admit(1, "t", true)), Go(1, Start(false)));
            && 1 in x.refused && x.refused[1].Starting?
            && x.saved.Some? && x.saved.value.messages == [Message(UserRole, prompt)] && x.saved.value.runs == []
  {
    var a := Tried(w, w.turns[1].request, "t", true);
    assert a.Admitted? && a.saved.messages == [] + [Message(UserRole, prompt)];
    var w4 := Answering(w, 1, a);
    assert Is(w4, 1, Starting) && w4.saved == Some(a.saved);
  }

  /** A new turn, the lease free and no journal left, on its way to its admission. */
  function Arrived(w: World, turn: nat, process: nat, request: Request): World {
    Entering(w, turn, process, request).(lease := Some(turn), turns := w.turns[turn := Turn(process, request, Admitting, None, 0, false)])
  }

  /** Nothing is left of an earlier turn: recovery changes nothing. */
  lemma RecoveryPasses(w: World, turn: nat)
    requires Is(w, turn, Recovering) && w.journal.None?
    ensures Apply(Apply(w, Go(turn, Recover(true))), Go(turn, Erase)) == w.(turns := w.turns[turn := w.turns[turn].(phase := Admitting)])
  {
    var x := Gone(w, turn, Recover(true));
    assert Is(x, turn, Erasing) && x.turns == w.turns[turn := w.turns[turn].(phase := Erasing)] && x == w.(turns := x.turns);
    assert Gone(x, turn, Erase).turns == w.turns[turn := w.turns[turn].(phase := Admitting)];
  }

  lemma Arrives(w: World, turn: nat, process: nat, request: Request)
    requires turn !in w.requests && process !in w.busy && w.lease.None? && w.journal.None? && !request.editor
    ensures Apply(Apply(Apply(Apply(w, Enter(turn, process, request)), Go(turn, Lease(true))), Go(turn, Recover(true))), Go(turn, Erase))
         == Arrived(w, turn, process, request)
  {
    var x := Gone(Entering(w, turn, process, request), turn, Lease(true));
    assert x.turns == w.turns[turn := Turn(process, request, Recovering, None, 0, false)];
    RecoveryPasses(x, turn);
  }

  lemma Unroll5(w: World, a: Step, b: Step, c: Step, d: Step, e: Step)
    ensures Run(w, [a, b, c, d, e]) == Apply(Apply(Apply(Apply(Apply(w, a), b), c), d), e)
  {
    assert [a, b, c, d, e][1..] == [b, c, d, e];
    Unroll4(Apply(w, a), b, c, d, e);
  }

  lemma Unroll6(w: World, a: Step, b: Step, c: Step, d: Step, e: Step, f: Step)
    ensures Run(w, [a, b, c, d, e, f]) == Apply(Apply(Apply(Apply(Apply(Apply(w, a), b), c), d), e), f)
  {
    assert [a, b, c, d, e, f][1..] == [b, c, d, e, f];
    Unroll5(Apply(w, a), b, c, d, e, f);
  }

  lemma {:induction false} RunJoins(w: World, a: seq<Step>, b: seq<Step>)
    ensures Run(w, a + b) == Run(Run(w, a), b)
    decreases |a|
  {
    if a == [] {
      assert a + b == b;
    } else {
      assert (a + b)[1..] == a[1..] + b;
      RunJoins(Apply(w, a[0]), a[1..], b);
    }
  }
}
