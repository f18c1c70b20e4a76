/** A saved conversation: what admitting a turn and recording a run do to it.
  *
  * Functions on `Saved` say what one change of the store does; the class `Session` makes
  * the same changes in place.
  */
module SessionData {
  import opened Wrappers
  import opened Runs

  datatype Role = UserRole | AssistantRole | OtherRole

  datatype Message = Message(role: Role, content: string)

  datatype RunRecord = RunRecord(runId: string, stop: Option<string>, tools: seq<string>)

  datatype Saved = Saved(profile: string, title: string, pinned: bool, messages: seq<Message>, runs: seq<RunRecord>)

  const INTERRUPTED := "interrupted"
  const NEW_TITLE := "agent session"

  // ---------------------------------------------------------------- what a run leaves behind

  /** The answer of a run: its content events put together. */
  function Answer(events: seq<Event>): string {
    if events == [] then ""
    else
      var last := events[|events| - 1];
      Answer(events[..|events| - 1]) + if last.Content? then last.text else ""
  }

  function Tools(events: seq<Event>): seq<string> {
    if events == [] then []
    else
      var last := events[|events| - 1];
      Tools(events[..|events| - 1]) + if last.ToolCallCompleted? then [last.call] else []
  }

  function StartedRun(events: seq<Event>): string {
    if events == [] then ""
    else
      var last := events[|events| - 1];
      if last.RunStarted? then last.run else StartedRun(events[..|events| - 1])
  }

  /** Whether the events carry any answer text. */
  predicate Answered(events: seq<Event>) {
    exists e | e in events :: e.Content? && e.text != ""
  }

  lemma {:induction false} AnsweredMeansAnswer(events: seq<Event>)
    ensures Answered(events) <==> Answer(events) != ""
  {
    if events != [] {
      var n := |events| - 1;
      AnsweredMeansAnswer(events[..n]);
      assert events == events[..n] + [events[n]];
    }
  }

  /** What a run leaves behind is put together in the order of its events: of two stretches,
    * the answer is the one's text and then the other's, the tools the one's calls and then
    * the other's, and the id the later one given. */
  lemma {:induction false} StretchesJoin(a: seq<Event>, b: seq<Event>)
    ensures Answer(a + b) == Answer(a) + Answer(b)
    ensures Tools(a + b) == Tools(a) + Tools(b)
    ensures StartedRun(a + b) == if exists e | e in b :: e.RunStarted? then StartedRun(b) else StartedRun(a)
    decreases |b|
  {
    if b == [] {
      assert a + b == a;
    } else {
      var n := |b| - 1;
      assert (a + b)[..|a + b| - 1] == a + b[..n];
      assert b == b[..n] + [b[n]];
      StretchesJoin(a, b[..n]);
    }
  }

  /** One event: only content is answer, only a completed call a tool, only a start an id. */
  lemma OfOneEvent(e: Event)
    ensures Answer([e]) == if e.Content? then e.text else ""
    ensures Tools([e]) == if e.ToolCallCompleted? then [e.call] else []
    ensures StartedRun([e]) == if e.RunStarted? then e.run else ""
  {
    assert [e][..0] == [];
  }

  function Recorded(s: Saved, events: seq<Event>, stop: string): Saved {
    var answer := Answer(events);
    s.(messages := if answer == "" then s.messages else s.messages + [Message(AssistantRole, answer)],
       runs := s.runs + [RunRecord(StartedRun(events), Some(stop), Tools(events))])
  }

  // ---------------------------------------------------------------- the latest answer

  /** Run `run` wrote the session's latest answer: it is the last run, finished, and the
    * transcript ends with a user prompt and an answer. */
  predicate IsLatest(s: Saved, run: string) {
    && s.runs != [] && s.runs[|s.runs| - 1].runId == run && s.runs[|s.runs| - 1].stop.Some?
    && |s.messages| >= 2
    && s.messages[|s.messages| - 2].role.UserRole? && s.messages[|s.messages| - 1].role.AssistantRole?
  }

  /** The session is `earlier` with one more prompt and its answer, and one more finished run
    * `run` that is its record. */
  predicate EndsWith(s: Saved, earlier: seq<Message>, prompt: string, answer: string, before: seq<RunRecord>, record: RunRecord, run: string) {
    && s.messages == earlier + [Message(UserRole, prompt), Message(AssistantRole, answer)]
    && s.runs == before + [record] && record.runId == run && record.stop.Some?
  }

  lemma LatestMeansEndsWith(s: Saved, run: string)
    ensures IsLatest(s, run) <==> exists earlier, prompt, answer, before, record :: EndsWith(s, earlier, prompt, answer, before, record, run)
    ensures IsLatest(s, run) ==>
              var m, n := |s.messages| - 2, |s.runs| - 1;
              && EndsWith(s, s.messages[..m], s.messages[m].content, s.messages[m + 1].content, s.runs[..n], s.runs[n], run)
              && WithoutLatest(s) == s.(messages := s.messages[..m] + [Message(UserRole, s.messages[m].content)], runs := s.runs[..n])
  {
    if IsLatest(s, run) {
      var m, n := |s.messages| - 2, |s.runs| - 1;
      assert EndsWith(s, s.messages[..m], s.messages[m].content, s.messages[m + 1].content, s.runs[..n], s.runs[n], run);
    }
  }

  function WithoutLatest(s: Saved): Saved
    requires s.messages != [] && s.runs != []
  {
    s.(messages := s.messages[..|s.messages| - 1], runs := s.runs[..|s.runs| - 1])
  }

  /** What recording a regeneration of `old` leaves: the answer exchanged, or nothing
    * changed at all. */
  function Exchanged(s: Saved, old_: string, finished: bool, events: seq<Event>, stop: string): Saved {
    if finished && Answered(events) && IsLatest(s, old_) then Recorded(WithoutLatest(s), events, stop) else s
  }

  /** All or nothing: the prompt and everything before it stay, and the old answer and its
    * record go exactly when a new answer and record take their places. */
  lemma ExchangeIsAllOrNothing(s: Saved, old_: string, finished: bool, events: seq<Event>, stop: string)
    ensures var t := Exchanged(s, old_, finished, events, stop);
            if finished && Answered(events) && IsLatest(s, old_)
            then
              && |t.messages| == |s.messages| && |t.runs| == |s.runs|
              && t.messages[..|t.messages| - 1] == s.messages[..|s.messages| - 1]
              && t.runs[..|t.runs| - 1] == s.runs[..|s.runs| - 1]
              && t.messages[|t.messages| - 1] == Message(AssistantRole, Answer(events))
              && t.runs[|t.runs| - 1].stop == Some(stop)
              && IsLatest(t, StartedRun(events))
              && t.(messages := s.messages, runs := s.runs) == s
            else t == s
  {
    AnsweredMeansAnswer(events);
  }

  /** The prompts of a transcript: its user messages, in order. */
  function Users(messages: seq<Message>): seq<string> {
    if messages == [] then []
    else
      var last := messages[|messages| - 1];
      Users(messages[..|messages| - 1]) + if last.role.UserRole? then [last.content] else []
  }

  lemma UsersAppend(messages: seq<Message>, m: Message)
    ensures Users(messages + [m]) == Users(messages) + if m.role.UserRole? then [m.content] else []
  {
    assert (messages + [m])[..|messages|] == messages;
  }

  /** Recording adds no prompt and loses none, in either way of recording. */
  lemma RecordingKeepsPrompts(s: Saved, old_: string, finished: bool, events: seq<Event>, stop: string)
    ensures Users(Recorded(s, events, stop).messages) == Users(s.messages)
    ensures Users(Exchanged(s, old_, finished, events, stop).messages) == Users(s.messages)
  {
    UsersAppend(s.messages, Message(AssistantRole, Answer(events)));
    if IsLatest(s, old_) {
      var w := WithoutLatest(s);
      assert s.messages == w.messages + [s.messages[|s.messages| - 1]];
      UsersAppend(w.messages, s.messages[|s.messages| - 1]);
      UsersAppend(w.messages, Message(AssistantRole, Answer(events)));
    }
  }

  // ---------------------------------------------------------------- admission

  /** What the model's history is made of: it is a function of these and nothing else. */
  datatype View = View(messages: seq<Message>, runs: seq<RunRecord>, prompt: string, limit: nat)

  datatype Refusal = Missing | ProfileMismatch | NotLatest | Unsaved

  datatype Admission = Admitted(view: View, saved: Saved) | Refused(refusal: Refusal)

  predicate Fits(s: Saved, expected: string, named: Option<string>) {
    s.profile == expected && (named.Some? ==> named.value == s.profile)
  }

  /** Admits a turn on what is saved now, `None` if there is nothing: a new prompt is
    * appended (`title` is the one made from it, `writable` whether it can be saved), a
    * regeneration of run `replacing` only reads. */
  function Admit(saved: Option<Saved>, expected: string, named: Option<string>, message: string, title: string,
                 replacing: Option<string>, limit: nat, writable: bool): Admission
  {
    if saved.None? then Refused(Missing)
    else
      var s := saved.value;
      if !Fits(s, expected, named) then Refused(ProfileMismatch)
      else if replacing.None? then
        if !writable then Refused(Unsaved)
        else
          var renamed := if s.messages == [] && s.title == NEW_TITLE then title else s.title;
          Admitted(View(s.messages, s.runs, message, limit),
                   s.(title := renamed, messages := s.messages + [Message(UserRole, message)]))
      else if !IsLatest(s, replacing.value) then Refused(NotLatest)
      else
        var n := |s.messages| - 2;
        Admitted(View(s.messages[..n], s.runs[..|s.runs| - 1], s.messages[n].content, limit), s)
  }

  /** What an admission answers, and what it reads and would save: a prompt is appended to what
    * there is, the title changing only of a session without messages that still has the
    * first one; a regeneration takes up what preceded the latest prompt and saves nothing. */
  lemma AdmissionExactly(saved: Option<Saved>, expected: string, named: Option<string>, message: string, title: string,
                         replacing: Option<string>, limit: nat, writable: bool)
    ensures var a := Admit(saved, expected, named, message, title, replacing, limit, writable);
            && (a == Refused(Missing) <==> saved.None?)
            && (a == Refused(ProfileMismatch) <==> saved.Some? && (saved.value.profile != expected || named !in {None, Some(expected)}))
            && (a == Refused(Unsaved) ==> replacing.None? && !writable)
            && (a == Refused(NotLatest) ==> replacing.Some? && !IsLatest(saved.value, replacing.value))
            && (saved.Some? && saved.value.profile == expected && named in {None, Some(expected)} ==>
                  (a.Admitted? <==> if replacing.None? then writable else IsLatest(saved.value, replacing.value)))
            && (a.Admitted? ==>
                  && a.view.limit == limit
                  && var s := saved.value;
                     if replacing.None? then
                       && a.view.messages == s.messages && a.view.runs == s.runs && a.view.prompt == message
                       && a.saved.messages == s.messages + [Message(UserRole, message)] && a.saved.runs == s.runs
                       && a.saved.profile == s.profile && a.saved.pinned == s.pinned
                       && (a.saved.title != s.title ==> s.messages == [] && s.title == NEW_TITLE && a.saved.title == title)
                       && (s.messages == [] && s.title == NEW_TITLE ==> a.saved.title == title)
                     else
                       && a.saved == s
                       && exists answer, record ::
                            EndsWith(s, a.view.messages, a.view.prompt, answer, a.view.runs, record, replacing.value))
  {
    if saved.Some? && replacing.Some? {
      LatestMeansEndsWith(saved.value, replacing.value);
    }
  }

  /** A regeneration adds no prompt, and a new prompt is added exactly once, at the end; an
    * admission changes no run record. */
  lemma AdmissionAddsThePrompt(saved: Option<Saved>, expected: string, named: Option<string>, message: string, title: string,
                               replacing: Option<string>, limit: nat, writable: bool)
    ensures var a := Admit(saved, expected, named, message, title, replacing, limit, writable);
            a.Admitted? ==>
              && saved.Some?
              && Users(a.saved.messages) == Users(saved.value.messages) + (if replacing.None? then [message] else [])
              && a.saved.runs == saved.value.runs
  {
    if saved.Some? {
      UsersAppend(saved.value.messages, Message(UserRole, message));
    }
  }

  class Session {
    var profile: string
    var title: string
    var pinned: bool
    var messages: seq<Message>
    var runs: seq<RunRecord>

    function Value(): Saved
      reads this
    {
      Saved(profile, title, pinned, messages, runs)
    }

    /** Takes the latest answer, if run `run` wrote it, and returns the prompt it answered;
      * otherwise the session is untouched. */
    method TakeLatestAnswer(run: string) returns (prompt: Option<string>)
      modifies this
      ensures prompt.Some? <==> IsLatest(old(Value()), run)
      ensures prompt.Some? ==> Value() == WithoutLatest(old(Value())) && prompt.value == old(messages)[|old(messages)| - 2].content
      ensures prompt.None? ==> Value() == old(Value())
    {
      if runs == [] {
        return None;
      }
      var latest := runs[|runs| - 1];
      if latest.runId != run || latest.stop.None? || |messages| < 2 {
        return None;
      }
      var asked, answer := messages[|messages| - 2], messages[|messages| - 1];
      if !asked.role.UserRole? || !answer.role.AssistantRole? {
        return None;
      }
      messages := messages[..|messages| - 1];
      runs := runs[..|runs| - 1];
      return Some(asked.content);
    }

    /** Records a run's answer, if it has one, and its tools; nothing else changes. */
    method RecordRunEvents(events: seq<Event>, stop: string)
      modifies this
      ensures Value() == Recorded(old(Value()), events, stop)
    {
      var run, content, tools := "", "", [];
      var i := 0;
      while i < |events|
        invariant 0 <= i <= |events|
        invariant run == StartedRun(events[..i]) && content == Answer(events[..i]) && tools == Tools(events[..i])
        invariant Value() == old(Value())
      {
        assert events[..i + 1][..i] == events[..i];
        match events[i] {
          case RunStarted(started) => run := started;
          case Content(text) => content := content + text;
          case ToolCallCompleted(call) => tools := tools + [call];
          case _ =>
        }
        i := i + 1;
      }
      assert events[..i] == events;
      if content != "" {
        messages := messages + [Message(AssistantRole, content)];
      }
      runs := runs + [RunRecord(run, Some(stop), tools)];
    }

    /** The change the recorder makes, in one update of the store: `true` if it is kept. */
    method Record(replacing: Option<string>, finished: bool, events: seq<Event>, stop: string) returns (kept: bool)
      modifies this
      ensures Value() == if replacing.Some? then Exchanged(old(Value()), replacing.value, finished, events, stop)
                         else Recorded(old(Value()), events, stop)
      ensures kept <==> replacing.None? || (finished && Answered(events) && IsLatest(old(Value()), replacing.value))
    {
      if replacing.Some? {
        if !finished || !Answered(events) {
          return false;
        }
        var taken := TakeLatestAnswer(replacing.value);
        if taken.None? {
          return false;
        }
      }
      RecordRunEvents(events, stop);
      return true;
    }
  }
}
