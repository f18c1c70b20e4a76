/** Regenerating the latest answer: what a turn's history is made of, what its answer
  * follows, and what an admission that outlives its request does to both.
  */
module Regeneration {
  import opened Wrappers
  import opened Runs
  import opened SessionData
  import opened Turns

  function Last(asked: seq<Asked>): Asked
    requires asked != []
  {
    asked[|asked| - 1]
  }

  /** The saved session after its last admitted prompt: what preceded the prompt, the
    * prompt, at most one answer, and some run records. */
  predicate Extends(s: Saved, a: Asked, answers: nat, records: nat) {
    && |s.messages| == |a.messages| + 1 + answers
    && |s.runs| == |a.runs| + records
    && s.messages[..|a.messages|] == a.messages
    && s.messages[|a.messages|] == Message(UserRole, a.prompt)
    && s.runs[..|a.runs|] == a.runs
    && (answers == 0 || (answers == 1 && s.messages[|a.messages| + 1].role.AssistantRole? && records >= 1))
  }

  function Answers(s: Saved, a: Asked): int {
    |s.messages| - |a.messages| - 1
  }

  function Records(s: Saved, a: Asked): int {
    |s.runs| - |a.runs|
  }

  /** A journal of an appended run that no turn is about to clear. */
  predicate Stale(w: World) {
    && LeftOver(w.journal)
    && !(w.lease.Some? && Clearing(w, w.lease.value))
  }

  predicate Fits(s: Saved, asked: seq<Asked>, torn: bool, stale: bool) {
    if asked == [] then s.messages == []
    else
      var a := Last(asked);
      && Answers(s, a) >= 0 && Records(s, a) >= 0
      && Extends(s, a, Answers(s, a), Records(s, a))
      && (!torn ==> Records(s, a) <= 1)
      && (!torn && stale ==> Answers(s, a) == 0 && Records(s, a) == 0)
  }

  /** The shape of the saved session. */
  predicate Shaped(w: World) {
    w.saved.Some? ==> Fits(w.saved.value, w.asked, w.torn, Stale(w))
  }

  predicate Active(phase: Phase) {
    phase.Starting? || phase.Journaling? || phase.Executing?
  }

  /** What a turn was admitted on: the prompt it runs and what preceded that prompt. */
  predicate Founded(t: nat, turn: Turn, asked: seq<Asked>) {
    && turn.at < |asked| && turn.view.Some?
    && var view, first := turn.view.value, asked[turn.at];
       && view.messages == first.messages && view.prompt == first.prompt && view.limit == turn.request.limit
       && first.runs <= view.runs
       && (turn.request.replacing.None? ==> first.turn == t && view.runs == first.runs)
       && (!turn.torn ==> view.runs == first.runs)
  }

  /** Whether what it was admitted on still stands: only an orphan can have changed it. */
  predicate Stands(t: nat, turn: Turn, s: Saved, asked: seq<Asked>, intruded: bool)
    requires asked != [] && turn.view.Some?
  {
    var a := Last(asked);
    match turn.request.replacing
    case None => Answers(s, a) == 0 && Records(s, a) == 0
    case Some(run) =>
      if intruded then Answers(s, a) == 0 && Records(s, a) == 0
      else IsLatest(s, run) && Answers(s, a) == 1 && turn.view.value.runs == s.runs[..|s.runs| - 1]
  }

  predicate CurrentTurn(t: nat, turn: Turn, saved: Option<Saved>, asked: seq<Asked>, intruded: bool) {
    Active(turn.phase) ==>
      && Founded(t, turn, asked)
      && (if intruded then Last(asked).turn != t && turn.at < |asked| - 1 else turn.at == |asked| - 1)
      && (saved.Some? ==> Stands(t, turn, saved.value, asked, intruded))
  }

  /** The turn that holds the lease. */
  predicate Current(w: World) {
    w.lease.Some? && w.lease.value in w.turns ==>
      CurrentTurn(w.lease.value, w.turns[w.lease.value], w.saved, w.asked, w.intruded)
  }

  ghost predicate Sound(w: World) {
    Leased(w) && Shaped(w) && Current(w)
  }

  ghost predicate Inv(w: World) {
    Entered(w) && Traced(w) && Sound(w)
  }

  /** A session whose transcript ends with an answer has it after its last admitted prompt. */
  lemma LatestFollowsLastPrompt(s: Saved, asked: seq<Asked>, torn: bool, stale: bool, run: string)
    requires Fits(s, asked, torn, stale) && IsLatest(s, run)
    ensures asked != [] && Answers(s, Last(asked)) == 1
    ensures s.messages[..|s.messages| - 2] == Last(asked).messages
    ensures s.messages[|s.messages| - 2] == Message(UserRole, Last(asked).prompt)
  {
    if asked != [] {
      assert s.messages[|Last(asked).messages|].role.UserRole?;
    }
  }

  // ---------------------------------------------------------------- steps that save nothing

  lemma ShapedFrame(w: World, x: World)
    requires Shaped(w)
    requires x.saved == w.saved && x.asked == w.asked
    requires x.torn || (!w.torn && (Stale(x) ==> Stale(w)))
    ensures Shaped(x)
  {
  }

  /** No turn that holds the lease and runs on an admission has changed. */
  predicate SameTurn(w: World, x: World) {
    x.lease.Some? && x.lease.value in x.turns && Active(x.turns[x.lease.value].phase) ==>
      && x.lease == w.lease && w.lease.value in w.turns && Active(w.turns[w.lease.value].phase)
      && x.turns[x.lease.value].(phase := Starting) == w.turns[x.lease.value].(phase := Starting)
  }

  lemma CurrentFrame(w: World, x: World)
    requires Current(w) && SameTurn(w, x)
    requires (x.saved == w.saved || x.saved.None?) && x.asked == w.asked && x.intruded == w.intruded
    ensures Current(x)
  {
  }

  lemma QuietMoves(w: World, turn: nat, move: Move)
    requires Sound(w) && turn in w.turns && CanGo(w.turns[turn].phase, move) && !move.Recover? && !move.Record?
    ensures Shaped(Gone(w, turn, move)) && Current(Gone(w, turn, move))
  {
    var x := Gone(w, turn, move);
    assert SameTurn(w, x);
    CurrentFrame(w, x);
    if move.WriteJournal? {
      JournalKeeps(w, turn, move);
    } else {
      assert Stale(x) ==> Stale(w);
      ShapedFrame(w, x);
    }
  }

  lemma JournalKeeps(w: World, turn: nat, move: Move)
    requires Sound(w) && Is(w, turn, Journaling) && move.WriteJournal?
    ensures Shaped(Gone(w, turn, move))
  {
    var x := Gone(w, turn, move);
    assert w.lease == Some(turn);
    if w.turns[turn].request.replacing.Some? || !move.ok {
      assert Stale(x) ==> Stale(w);
      ShapedFrame(w, x);
    }
  }

  lemma EnterKeeps(w: World, turn: nat, process: nat, request: Request)
    requires Inv(w) && turn !in w.requests
    ensures Shaped(Entering(w, turn, process, request)) && Current(Entering(w, turn, process, request))
  {
    var x := Entering(w, turn, process, request);
    assert turn !in w.turns;
    CurrentFrame(w, x);
    ShapedFrame(w, x);
  }

  lemma LeaveKeeps(w: World, turn: nat)
    requires Sound(w) && (Is(w, turn, Unleased) || Is(w, turn, Relocking))
    ensures Shaped(Leaving(w, turn)) && Current(Leaving(w, turn))
  {
    var x := Leaving(w, turn);
    assert w.lease != Some(turn);
    CurrentFrame(w, x);
    ShapedFrame(w, x);
  }

  lemma AbandonKeeps(w: World, turn: nat)
    requires Sound(w) && turn in w.turns && Droppable(w.turns[turn].phase)
    ensures Shaped(Abandoned(w, turn)) && Current(Abandoned(w, turn))
  {
    var x := Abandoned(w, turn);
    CurrentFrame(w, x);
    ShapedFrame(w, x);
  }

  lemma CrashKeeps(w: World, p: nat)
    requires Sound(w)
    ensures Shaped(Crashed(w, p)) && Current(Crashed(w, p))
  {
    var x := Crashed(w, p);
    CurrentFrame(w, x);
    assert x.torn || (!w.torn && (Stale(x) ==> Stale(w)));
    ShapedFrame(w, x);
  }

  lemma ChangeKeeps(w: World, saved: Option<Saved>)
    requires Sound(w)
    requires saved.Some? ==> w.saved.Some? && saved.value.messages == w.saved.value.messages && saved.value.runs == w.saved.value.runs
    ensures Shaped(w.(saved := saved)) && Current(w.(saved := saved))
  {
    if saved.Some? && w.lease.Some? && w.lease.value in w.turns && Active(w.turns[w.lease.value].phase) {
      assert Stands(w.lease.value, w.turns[w.lease.value], w.saved.value, w.asked, w.intruded);
    }
  }

  // ---------------------------------------------------------------- recovering and recording

  lemma RecoveredFits(s: Saved, asked: seq<Asked>, torn: bool, record: RunRecord)
    requires Fits(s, asked, torn, true)
    ensures Fits(s.(runs := s.runs + [record]), asked, torn, false)
  {
    if asked != [] {
      assert (s.runs + [record])[..|Last(asked).runs|] == s.runs[..|Last(asked).runs|];
    }
  }

  lemma RecoverKeeps(w: World, turn: nat, ok: bool)
    requires Sound(w) && Is(w, turn, Recovering)
    ensures Shaped(Gone(w, turn, Recover(ok))) && Current(Gone(w, turn, Recover(ok)))
  {
    var x := Gone(w, turn, Recover(ok));
    assert w.lease == Some(turn);
    if x.saved != w.saved {
      assert Stale(w);
      RecoveredFits(w.saved.value, w.asked, w.torn, RunRecord(w.journal.value.run, Some(INTERRUPTED), []));
    } else {
      ShapedFrame(w, x);
    }
  }

  lemma AppendedFits(s: Saved, a: Asked, events: seq<Event>, stop: string)
    requires Extends(s, a, 0, 0)
    ensures var t := Recorded(s, events, stop);
            && 0 <= Answers(t, a) <= 1 && Records(t, a) == 1
            && Extends(t, a, Answers(t, a), 1)
  {
    var t := Recorded(s, events, stop);
    assert t.messages[..|a.messages|] == s.messages[..|a.messages|] && t.runs[..|a.runs|] == s.runs[..|a.runs|];
  }

  lemma ExchangeExtends(s: Saved, t: Saved, a: Asked, records: nat)
    requires Extends(s, a, 1, records)
    requires |t.messages| == |s.messages| && |t.runs| == |s.runs|
    requires t.messages[..|t.messages| - 1] == s.messages[..|s.messages| - 1]
    requires t.runs[..|t.runs| - 1] == s.runs[..|s.runs| - 1]
    requires t.messages[|t.messages| - 1].role.AssistantRole?
    ensures Extends(t, a, 1, records)
  {
    assert t.messages[..|a.messages|] == t.messages[..|t.messages| - 1][..|a.messages|];
    assert s.messages[..|a.messages|] == s.messages[..|s.messages| - 1][..|a.messages|];
    assert t.messages[|a.messages|] == t.messages[..|t.messages| - 1][|a.messages|];
    assert t.runs[..|a.runs|] == t.runs[..|t.runs| - 1][..|a.runs|];
    assert s.runs[..|a.runs|] == s.runs[..|s.runs| - 1][..|a.runs|];
  }

  /** What the recorder leaves fits, whichever way it records. */
  lemma KeptFits(s: Saved, t: nat, turn: Turn, asked: seq<Asked>, torn: bool, stale: bool, intruded: bool,
                 finished: bool, events: seq<Event>, stop: string)
    requires Fits(s, asked, torn, stale) && asked != [] && turn.view.Some? && Stands(t, turn, s, asked, intruded)
    ensures var k := Kept(Some(s), turn.request, finished, events, stop);
            k.Some? && Fits(k.value, asked, torn, false)
  {
    var a := Last(asked);
    match turn.request.replacing {
      case None => AppendedFits(s, a, events, stop);
      case Some(run) =>
        ExchangeIsAllOrNothing(s, run, finished, events, stop);
        var k := Exchanged(s, run, finished, events, stop);
        if k != s {
          LatestFollowsLastPrompt(s, asked, torn, stale, run);
          ExchangeExtends(s, k, a, Records(s, a));
        }
    }
  }

  lemma RecordShapes(w: World, turn: nat, move: Move)
    requires Sound(w) && Is(w, turn, Executing) && move.Record?
    ensures Shaped(Gone(w, turn, move))
  {
    var x := Gone(w, turn, move);
    assert w.lease == Some(turn);
    assert x.torn || !Stale(x);
    if w.saved.Some? && move.ok {
      KeptFits(w.saved.value, turn, w.turns[turn], w.asked, w.torn, Stale(w), w.intruded, move.finished, move.events, move.stop);
    } else {
      TornFits(w.saved, w.asked, w.torn, Stale(w), x.torn);
    }
  }

  /** The more is torn, the less is asked of the session. */
  lemma TornFits(saved: Option<Saved>, asked: seq<Asked>, torn: bool, stale: bool, more: bool)
    requires saved.Some? ==> Fits(saved.value, asked, torn, stale)
    requires torn ==> more
    ensures saved.Some? ==> Fits(saved.value, asked, more, stale) && Fits(saved.value, asked, more, false) && Fits(saved.value, asked, true, true)
  {
  }

  lemma RecordKeeps(w: World, turn: nat, move: Move)
    requires Sound(w) && Is(w, turn, Executing) && move.Record?
    ensures Shaped(Gone(w, turn, move)) && Current(Gone(w, turn, move))
  {
    RecordShapes(w, turn, move);
    assert w.lease == Some(turn);
  }

  // ---------------------------------------------------------------- admission

  /** What an admission reads and would save. */
  predicate Reads(saved: Option<Saved>, r: Request, a: Admission) {
    a.Admitted? ==>
      && saved.Some?
      && var s := saved.value;
         match r.replacing
         case None =>
           && a.view == View(s.messages, s.runs, r.message, r.limit)
           && a.saved.messages == s.messages + [Message(UserRole, r.message)] && a.saved.runs == s.runs
         case Some(run) =>
           && IsLatest(s, run)
           && a.view == View(s.messages[..|s.messages| - 2], s.runs[..|s.runs| - 1], s.messages[|s.messages| - 2].content, r.limit)
  }

  lemma TriedReads(w: World, r: Request, title: string, ok: bool)
    ensures Reads(w.saved, r, Tried(w, r, title, ok))
  {
  }

  /** An admitted prompt starts a new stretch of the session, whoever's it is. */
  lemma PromptFits(s: Saved, t: Saved, a: Asked, asked: seq<Asked>)
    requires t.messages == s.messages + [Message(UserRole, a.prompt)] && t.runs == s.runs
    requires a.messages == s.messages && a.runs == s.runs
    ensures Fits(t, asked + [a], false, true) && Fits(t, asked + [a], false, false)
    ensures Answers(t, a) == 0 && Records(t, a) == 0
  {
    assert t.messages[..|s.messages|] == s.messages && t.runs[..|s.runs|] == s.runs;
  }

  lemma AppendKeeps(w: World, turn: nat, a: Admission)
    requires Sound(w) && Is(w, turn, Admitting) && w.turns[turn].request.replacing.None?
    requires a.Admitted? && Reads(w.saved, w.turns[turn].request, a)
    ensures Shaped(Answering(w, turn, a)) && Current(Answering(w, turn, a))
  {
    assert w.lease == Some(turn);
    PromptFits(w.saved.value, a.saved, Asked(turn, w.turns[turn].request.message, a.view.messages, a.view.runs), w.asked);
  }

  /** What a regeneration is admitted on, and that it stands. */
  lemma RegenerateFounds(s: Saved, t: nat, turn: Turn, asked: seq<Asked>, torn: bool, stale: bool)
    requires Fits(s, asked, torn, stale) && turn.request.replacing.Some? && IsLatest(s, turn.request.replacing.value)
    requires turn.view == Some(View(s.messages[..|s.messages| - 2], s.runs[..|s.runs| - 1], s.messages[|s.messages| - 2].content, turn.request.limit))
    requires turn.at == (if asked == [] then 0 else |asked| - 1) && turn.torn == torn
    ensures CurrentTurn(t, turn, Some(s), asked, false)
  {
    LatestFollowsLastPrompt(s, asked, torn, stale, turn.request.replacing.value);
    var first := Last(asked);
    assert first.runs == s.runs[..|first.runs|];
    assert s.runs[..|s.runs| - 1][..|first.runs|] == first.runs;
  }

  lemma RegenerateKeeps(w: World, turn: nat, a: Admission)
    requires Sound(w) && Is(w, turn, Admitting) && w.turns[turn].request.replacing.Some?
    requires a.Admitted? && Reads(w.saved, w.turns[turn].request, a)
    ensures Shaped(Answering(w, turn, a)) && Current(Answering(w, turn, a))
  {
    assert w.lease == Some(turn);
    var x := Answering(w, turn, a);
    ShapedFrame(w, x);
    RegenerateFounds(w.saved.value, turn, x.turns[turn], w.asked, w.torn, Stale(w));
  }

  lemma RefuseKeeps(w: World, turn: nat, a: Admission)
    requires Sound(w) && Is(w, turn, Admitting) && a.Refused?
    ensures Shaped(Answering(w, turn, a)) && Current(Answering(w, turn, a))
  {
    assert w.lease == Some(turn);
    ShapedFrame(w, Answering(w, turn, a));
  }

  /** The turn with the lease keeps what it was admitted on when another's prompt lands. */
  lemma OutdatedTurn(t: nat, turn: Turn, saved: Option<Saved>, asked: seq<Asked>, intruded: bool, next: Saved, entry: Asked)
    requires CurrentTurn(t, turn, saved, asked, intruded) && entry.turn != t
    requires Answers(next, entry) == 0 && Records(next, entry) == 0
    ensures CurrentTurn(t, turn, Some(next), asked + [entry], true)
  {
    if Active(turn.phase) {
      assert (asked + [entry])[turn.at] == asked[turn.at];
    }
  }

  /** An orphan's prompt lands among whatever the turn with the lease is doing. */
  lemma IntrudeKeeps(w: World, turn: nat, a: Admission)
    requires Inv(w) && turn in w.orphans && Reads(w.saved, w.orphans[turn].request, a)
    ensures Shaped(Intruding(w, turn, a)) && Current(Intruding(w, turn, a))
  {
    var r := w.orphans[turn].request;
    if a.Admitted? && r.replacing.None? {
      var entry := Asked(turn, r.message, a.view.messages, a.view.runs);
      PromptFits(w.saved.value, a.saved, entry, w.asked);
      if w.lease.Some? {
        assert turn !in w.turns;
        OutdatedTurn(w.lease.value, w.turns[w.lease.value], w.saved, w.asked, w.intruded, a.saved, entry);
      }
    } else {
      SilentIntrusion(w, turn, a);
    }
  }

  lemma SilentIntrusion(w: World, turn: nat, a: Admission)
    requires Sound(w) && turn in w.orphans && (a.Refused? || w.orphans[turn].request.replacing.Some?)
    ensures Shaped(Intruding(w, turn, a)) && Current(Intruding(w, turn, a))
  {
    ShapedFrame(w, Intruding(w, turn, a));
  }

  // ---------------------------------------------------------------- every run

  lemma GoKeeps(w: World, turn: nat, move: Move)
    requires Sound(w) && turn in w.turns && CanGo(w.turns[turn].phase, move)
    ensures Shaped(Gone(w, turn, move)) && Current(Gone(w, turn, move))
  {
    match move {
      case Recover(ok) => RecoverKeeps(w, turn, ok);
      case Record(_, _, _, _) => RecordKeeps(w, turn, move);
      case _ => QuietMoves(w, turn, move);
    }
  }

  lemma AdmitKeeps(w: World, turn: nat, a: Admission)
    requires Sound(w) && Is(w, turn, Admitting) && Reads(w.saved, w.turns[turn].request, a)
    ensures Shaped(Answering(w, turn, a)) && Current(Answering(w, turn, a))
  {
    if a.Refused? {
      RefuseKeeps(w, turn, a);
    } else if w.turns[turn].request.replacing.None? {
      AppendKeeps(w, turn, a);
    } else {
      RegenerateKeeps(w, turn, a);
    }
  }

  lemma StepKeeps(w: World, step: Step)
    requires Inv(w)
    ensures Shaped(Apply(w, step)) && Current(Apply(w, step))
  {
    if Possible(w, step) {
      match step {
        case Enter(turn, process, request) => EnterKeeps(w, turn, process, request);
        case Go(turn, move) => GoKeeps(w, turn, move);
        case Admit(turn, title, ok) =>
          TriedReads(w, w.turns[turn].request, title, ok);
          AdmitKeeps(w, turn, Tried(w, w.turns[turn].request, title, ok));
        case Leave(turn) => LeaveKeeps(w, turn);
        case Abandon(turn) => AbandonKeeps(w, turn);
        case Detached(turn, title, ok) =>
          TriedReads(w, w.orphans[turn].request, title, ok);
          IntrudeKeeps(w, turn, Tried(w, w.orphans[turn].request, title, ok));
        case Rename(_, title, pinned, _) => ChangeKeeps(w, Renamed(w.saved, title, pinned));
        case Delete(_) => ChangeKeeps(w, None);
        case Crash(p) => CrashKeeps(w, p);
      }
    }
  }

  lemma InvStep(w: World, step: Step)
    requires Inv(w)
    ensures Inv(Apply(w, step))
  {
    LeasedStep(w, step);
    EnteredStep(w, step);
    TracedStep(w, step);
    StepKeeps(w, step);
  }

  lemma {:induction false} InvRun(w: World, steps: seq<Step>)
    requires Inv(w)
    ensures Inv(Run(w, steps))
    decreases |steps|
  {
    if steps != [] {
      InvStep(w, steps[0]);
      InvRun(Apply(w, steps[0]), steps[1..]);
    }
  }

  /** What a turn about to be recorded finds, both ways. */
  lemma ExecutingStands(w: World, turn: nat)
    requires Inv(w) && Is(w, turn, Executing) && w.saved.Some?
    ensures w.turns[turn].request.replacing.Some? ==>
              (IsLatest(w.saved.value, w.turns[turn].request.replacing.value) <==> !w.intruded)
    ensures w.turns[turn].request.replacing.None? ==>
              && w.asked != [] && w.saved.value.messages != []
              && w.saved.value.messages[|w.saved.value.messages| - 1] == Message(UserRole, Last(w.asked).prompt)
              && (Last(w.asked).turn == turn <==> !w.intruded)
  {
    assert w.lease == Some(turn);
    assert CurrentTurn(turn, w.turns[turn], w.saved, w.asked, w.intruded);
  }

  /** When a regeneration is recorded, the answer it was admitted to replace is still the
    * latest one exactly when no orphan's prompt was admitted meanwhile: so then, with an
    * answer to give, it replaces that answer, and otherwise it leaves the session alone. */
  lemma RegenerationFindsItsAnswer(profile: string, title: string, steps: seq<Step>, turn: nat)
    ensures var w := Run(Created(profile, title), steps);
            Is(w, turn, Executing) && w.turns[turn].request.replacing.Some? && w.saved.Some? ==>
              (IsLatest(w.saved.value, w.turns[turn].request.replacing.value) <==> !w.intruded)
  {
    InvRun(Created(profile, title), steps);
    var w := Run(Created(profile, title), steps);
    if Is(w, turn, Executing) && w.saved.Some? {
      ExecutingStands(w, turn);
    }
  }

  /** The history a turn runs with is made of what preceded its prompt when that prompt was
    * first admitted: the same messages and prompt always, the same run records for a new
    * prompt. A regeneration sees those records first, and no others exactly when one record
    * was added since; so always unless a process died between recording a run and clearing
    * its journal, or the editor, which recovers nothing, recorded a run over another's
    * journal. No orphan changes any of this. */
  lemma RegenerationSeesTheFirstHistory(profile: string, title: string, steps: seq<Step>, turn: nat)
    ensures var w := Run(Created(profile, title), steps);
            turn in w.turns && Active(w.turns[turn].phase) ==>
              && w.turns[turn].at < |w.asked| && w.turns[turn].view.Some?
              && var view, first := w.turns[turn].view.value, w.asked[w.turns[turn].at];
                 && view.messages == first.messages && view.prompt == first.prompt
                 && view.limit == w.turns[turn].request.limit
                 && first.runs <= view.runs
                 && (w.turns[turn].request.replacing.None? ==> first.turn == turn && view.runs == first.runs)
                 && (!w.turns[turn].torn ==> view.runs == first.runs)
                 && (w.saved.Some? && w.turns[turn].request.replacing.Some? && !w.intruded ==>
                       (view.runs == first.runs <==> Records(w.saved.value, first) == 1))
  {
    InvRun(Created(profile, title), steps);
    var w := Run(Created(profile, title), steps);
    if turn in w.turns && Active(w.turns[turn].phase) {
      assert w.lease == Some(turn);
      assert CurrentTurn(turn, w.turns[turn], w.saved, w.asked, w.intruded);
    }
  }

  /** When a new prompt's run is recorded, the transcript ends with the prompt its answer
    * will follow: the run's own exactly when no orphan's prompt was admitted meanwhile. */
  lemma AnswersFollowTheirPrompt(profile: string, title: string, steps: seq<Step>, turn: nat)
    ensures var w := Run(Created(profile, title), steps);
            Is(w, turn, Executing) && w.turns[turn].request.replacing.None? && w.saved.Some? ==>
              && w.asked != [] && w.saved.value.messages != []
              && w.saved.value.messages[|w.saved.value.messages| - 1] == Message(UserRole, Last(w.asked).prompt)
              && (Last(w.asked).turn == turn <==> !w.intruded)
  {
    InvRun(Created(profile, title), steps);
    var w := Run(Created(profile, title), steps);
    if Is(w, turn, Executing) && w.saved.Some? {
      ExecutingStands(w, turn);
    }
  }

  // ---------------------------------------------------------------- the exceptions are real

  // First: a prompt is admitted; its run is recorded and the process dies before the
  // journal is cleared; another process regenerates the answer. The journal names the run
  // by the manager's id "m", the run's own events name it "r".

  const FIRST := Request(None, "q", "p", None, 0, false)
  const AGAIN := Request(Some("m"), "", "p", None, 0, false)

  function Events(run: string, answer: string): seq<Event> {
    [RunStarted(run), Content(answer)]
  }

  lemma AnswerOfTwo(run: string, answer: string)
    ensures var events := Events(run, answer); Answer(events) == answer && StartedRun(events) == run && Tools(events) == []
  {
    var events := Events(run, answer);
    assert events[..1] == [RunStarted(run)] && [RunStarted(run)][..0] == [];
    assert Answer([RunStarted(run)]) == "" && StartedRun([RunStarted(run)]) == run && Tools([RunStarted(run)]) == [];
    assert Answer(events) == "" + answer == answer;
  }

  lemma AnswerIsAppended(s: Saved, run: string, answer: string, stop: string)
    requires answer != ""
    ensures var t := Recorded(s, Events(run, answer), stop);
            && t.messages == s.messages + [Message(AssistantRole, answer)]
            && t.runs == s.runs + [RunRecord(run, Some(stop), [])]
            && t == s.(messages := t.messages, runs := t.runs)
  {
    AnswerOfTwo(run, answer);
  }

  const ASKED := [Enter(1, 1, FIRST), Go(1, Lease(true)), Go(1, Recover(true)), Go(1, Erase), Admit(1, "t", true), Go(1, Start(true))]
  const REGENERATED := [Go(2, Recover(true)), Go(2, Erase), Admit(2, "t", true)]

  function Dying(answer: string, stop: string): seq<Step> {
    [Go(1, WriteJournal("m", true)), Go(1, Record(true, Events("r", answer), stop, true)), Crash(1),
     Enter(2, 2, AGAIN), Go(2, Lease(true))]
  }

  const ENTRY := Asked(1, "q", [], [])

  function RunningFirst(phase: Phase, saved: Saved, journal: Option<Journal>): World {
    World(Some(saved), map[1 := 1], Some(1), map[1 := Turn(1, FIRST, phase, Some(View([], [], "q", 0)), 0, false)], journal,
          map[], [ENTRY], false, false, map[1 := FIRST], map[], map[])
  }

  const ASKED_SESSION := Saved("p", "x", false, [Message(UserRole, "q")], [])

  function AnsweredSession(answer: string, stop: string): Saved {
    Saved("p", "x", false, [Message(UserRole, "q"), Message(AssistantRole, answer)], [RunRecord("r", Some(stop), [])])
  }

  function Torn(answer: string, stop: string): World {
    World(Some(AnsweredSession(answer, stop)), map[2 := 2], Some(2), map[2 := Turn(2, AGAIN, Recovering, None, 0, false)],
          Some(Journal("m", false)), map[], [ENTRY], true, false, map[1 := FIRST, 2 := AGAIN], map[], map[])
  }

  lemma PromptIsSaved()
    ensures Apply(Arrived(Created("p", "x"), 1, 1, FIRST), Admit(1, "t", true)) == RunningFirst(Starting, ASKED_SESSION, None)
  {
    var w := Arrived(Created("p", "x"), 1, 1, FIRST);
    var a := Tried(w, FIRST, "t", true);
    assert a.Admitted? && a.saved.messages == [Message(UserRole, "q")] && a.saved.runs == [];
    var x := Answering(w, 1, a);
    assert x.asked == [ENTRY] && x.turns == RunningFirst(Starting, ASKED_SESSION, None).turns;
  }

  lemma PromptIsAdmitted()
    ensures Run(Created("p", "x"), ASKED) == RunningFirst(Journaling, ASKED_SESSION, None)
  {
    Unroll6(Created("p", "x"), ASKED[0], ASKED[1], ASKED[2], ASKED[3], ASKED[4], ASKED[5]);
    Arrives(Created("p", "x"), 1, 1, FIRST);
    PromptIsSaved();
    var w := RunningFirst(Starting, ASKED_SESSION, None);
    assert Gone(w, 1, Start(true)).turns == RunningFirst(Journaling, ASKED_SESSION, None).turns;
  }

  lemma RunIsRecorded(answer: string, stop: string)
    requires answer != ""
    ensures Apply(Apply(RunningFirst(Journaling, ASKED_SESSION, None), Go(1, WriteJournal("m", true))),
                  Go(1, Record(true, Events("r", answer), stop, true)))
         == RunningFirst(Recording, AnsweredSession(answer, stop), Some(Journal("m", false)))
  {
    var w6 := Apply(RunningFirst(Journaling, ASKED_SESSION, None), Go(1, WriteJournal("m", true)));
    assert w6.turns == RunningFirst(Executing, ASKED_SESSION, None).turns;
    assert w6 == RunningFirst(Executing, ASKED_SESSION, Some(Journal("m", false)));
    AnswerIsAppended(ASKED_SESSION, "r", answer, stop);
    var t := Recorded(ASKED_SESSION, Events("r", answer), stop);
    assert t.messages == AnsweredSession(answer, stop).messages && t.runs == AnsweredSession(answer, stop).runs;
    var w7 := Gone(w6, 1, Record(true, Events("r", answer), stop, true));
    assert w7.saved == Some(AnsweredSession(answer, stop));
    assert w7.turns == RunningFirst(Recording, ASKED_SESSION, None).turns;
  }

  lemma ProcessDies(answer: string, stop: string)
    ensures Apply(Apply(Apply(RunningFirst(Recording, AnsweredSession(answer, stop), Some(Journal("m", false))), Crash(1)),
                        Enter(2, 2, AGAIN)), Go(2, Lease(true)))
         == Torn(answer, stop)
  {
    var w7 := RunningFirst(Recording, AnsweredSession(answer, stop), Some(Journal("m", false)));
    assert Tearing(w7, 1);
    var w8 := Crashed(w7, 1);
    assert w8.turns == map[] && w8.busy == map[] && w8.orphans == map[] && w8.abandoned == map[];
    assert w8.requests == map[1 := FIRST] && w8.torn && w8.lease.None?;
    var w9 := Entering(w8, 2, 2, AGAIN);
    assert w9.turns == map[2 := Turn(2, AGAIN, Leasing, None, 0, false)];
    assert Gone(w9, 2, Lease(true)).turns == Torn(answer, stop).turns;
  }

  lemma TornRunIsAdmittedAgain(answer: string, stop: string)
    ensures var w := Run(Torn(answer, stop), REGENERATED);
            && w.asked == [ENTRY]
            && Is(w, 2, Starting) && w.turns[2].view == Some(View([], [RunRecord("r", Some(stop), [])], "q", 0))
  {
    var w10 := Torn(answer, stop);
    var w11 := Gone(w10, 2, Recover(true));
    assert w11.saved.value.runs == [RunRecord("r", Some(stop), []), RunRecord("m", Some(INTERRUPTED), [])];
    var w12 := Gone(w11, 2, Erase);
    assert Is(w12, 2, Admitting) && w12.saved == w11.saved;
    assert IsLatest(w12.saved.value, "m");
    Unroll3(w10, REGENERATED[0], REGENERATED[1], REGENERATED[2]);
    assert w12.saved.value.runs[..1] == [RunRecord("r", Some(stop), [])];
    assert w12.saved.value.messages[..0] == [];
  }

  /** The run of the torn turn is recorded a second time, as interrupted, and regenerating
    * its answer then shows the model that run's own first record. */
  lemma TornRunIsSeenAgain(answer: string, stop: string)
    requires answer != ""
    ensures var w := Run(Created("p", "x"), ASKED + Dying(answer, stop) + REGENERATED);
            && w.asked == [ENTRY]
            && Is(w, 2, Starting) && w.turns[2].view == Some(View([], [RunRecord("r", Some(stop), [])], "q", 0))
  {
    RunJoins(Created("p", "x"), ASKED + Dying(answer, stop), REGENERATED);
    RunJoins(Created("p", "x"), ASKED, Dying(answer, stop));
    PromptIsAdmitted();
    var d := Dying(answer, stop);
    Unroll5(RunningFirst(Journaling, ASKED_SESSION, None), d[0], d[1], d[2], d[3], d[4]);
    RunIsRecorded(answer, stop);
    ProcessDies(answer, stop);
    TornRunIsAdmittedAgain(answer, stop);
  }

  // Second: a client goes away while its prompt "a" is being admitted, which frees the
  // lease; another process runs "b"; the first prompt lands; then the run is recorded.

  const OTHER := Request(None, "b", "p", None, 0, false)

  const TAKEN := [Enter(2, 2, OTHER), Go(2, Lease(true)), Go(2, Recover(true)), Go(2, Erase), Admit(2, "t", true), Go(2, Start(true))]

  function Landing(answer: string, stop: string): seq<Step> {
    [Go(2, WriteJournal("m", true)), Detached(1, "t", true), Go(2, Record(true, Events("r", answer), stop, true)),
     Go(2, ClearJournal), Go(2, DropLease)]
  }

  function Dropped(): World {
    World(Some(Saved("p", "x", false, [], [])), map[1 := 1], None, map[], None, map[1 := Turn(1, DROPPED_REQUEST, Admitting, None, 0, false)],
          [], false, false, map[1 := DROPPED_REQUEST], map[], map[1 := 1])
  }

  const B_SESSION := Saved("p", "x", false, [Message(UserRole, "b")], [])

  /** What matters of the worlds in which the second turn is on its way. */
  predicate Second(w: World, phase: Phase, saved: Saved) {
    && w.saved == Some(saved) && w.lease == Some(2) && w.orphans == Dropped().orphans && w.journal.None?
    && Is(w, 2, phase) && w.turns[2].request == OTHER
  }

  lemma OtherIsAdmitted(w: World)
    requires Second(w, Admitting, Dropped().saved.value)
    ensures Second(Apply(Apply(w, TAKEN[4]), TAKEN[5]), Journaling, B_SESSION)
  {
    var a := Tried(w, OTHER, "t", true);
    assert a.Admitted? && a.saved == B_SESSION by {
      assert [] + [Message(UserRole, "b")] == [Message(UserRole, "b")];
    }
    assert Second(Answering(w, 2, a), Starting, B_SESSION);
  }

  lemma PromptLands(w: World)
    requires Second(w, Journaling, B_SESSION)
    ensures var x := Apply(Apply(w, Go(2, WriteJournal("m", true))), Detached(1, "t", true));
            && Is(x, 2, Executing) && x.turns[2].request == OTHER
            && x.saved == Some(B_SESSION.(messages := [Message(UserRole, "b"), Message(UserRole, "a")]))
  {
    var w1 := Gone(w, 2, WriteJournal("m", true));
    var a := Tried(w1, DROPPED_REQUEST, "t", true);
    assert a.Admitted? && a.saved == B_SESSION.(messages := [Message(UserRole, "b"), Message(UserRole, "a")]) by {
      assert B_SESSION.messages + [Message(UserRole, "a")] == [Message(UserRole, "b"), Message(UserRole, "a")];
    }
    assert Intruding(w1, 1, a).saved == Some(a.saved);
  }

  lemma AnswerLands(w: World, answer: string, stop: string)
    requires answer != "" && Is(w, 2, Executing) && w.turns[2].request == OTHER
    requires w.saved == Some(B_SESSION.(messages := [Message(UserRole, "b"), Message(UserRole, "a")]))
    ensures var x := Apply(Apply(Apply(w, Go(2, Record(true, Events("r", answer), stop, true))), Go(2, ClearJournal)), Go(2, DropLease));
            x.saved.Some? && x.saved.value.messages == [Message(UserRole, "b"), Message(UserRole, "a"), Message(AssistantRole, answer)]
  {
    AnswerIsAppended(w.saved.value, "r", answer, stop);
    var w3 := Gone(w, 2, Record(true, Events("r", answer), stop, true));
    assert w3.saved.value.messages == [Message(UserRole, "b"), Message(UserRole, "a"), Message(AssistantRole, answer)];
    var w4 := Gone(w3, 2, ClearJournal);
    assert w4.saved == w3.saved;
  }

  /** The answer to "b" is saved as if it answered "a". */
  lemma OrphanTakesTheAnswer(answer: string, stop: string)
    requires answer != ""
    ensures var w := Run(Run(Run(Created("p", "x"), DROPPED), TAKEN), Landing(answer, stop));
            w.saved.Some? && w.saved.value.messages == [Message(UserRole, "b"), Message(UserRole, "a"), Message(AssistantRole, answer)]
  {
    RequestIsDropped();
    assert Run(Created("p", "x"), DROPPED) == Dropped();
    Unroll6(Dropped(), TAKEN[0], TAKEN[1], TAKEN[2], TAKEN[3], TAKEN[4], TAKEN[5]);
    Arrives(Dropped(), 2, 2, OTHER);
    OtherIsAdmitted(Arrived(Dropped(), 2, 2, OTHER));
    var w, d := Run(Dropped(), TAKEN), Landing(answer, stop);
    Unroll5(w, d[0], d[1], d[2], d[3], d[4]);
    PromptLands(w);
    AnswerLands(Apply(Apply(w, d[0]), d[1]), answer, stop);
  }
}
