/** A run's events as a server-sent event stream, and a client that loses and resumes it.
  *
  * Every frame carries its buffer position as its id; a client resumes by naming the last
  * id it received, in `?after=` or in the `Last-Event-ID` header (section 9.2.4 of the
  * WHATWG HTML standard).
  */
module EventStreams {
  import opened Wrappers
  import opened Runs
  import Lifecycle

  const USIZE_MAX: nat := 0xFFFF_FFFF_FFFF_FFFF

  // ---------------------------------------------------------------- ids on the wire

  function DigitOf(d: nat): (c: char)
    requires d < 10
    ensures Digit(c) && DigitValue(c) == d
  {
    d as char + '0'
  }

  predicate Digit(c: char) {
    '0' <= c <= '9'
  }

  function DigitValue(c: char): nat
    requires Digit(c)
  {
    (c - '0') as nat
  }

  /** A frame's id as it is written. */
  function Decimal(n: nat): string {
    if n < 10 then [DigitOf(n)] else Decimal(n / 10) + [DigitOf(n % 10)]
  }

  /** The value of a run of digits. */
  function Digits(s: string): Option<nat> {
    if s == [] then Some(0)
    else
      var rest := Digits(s[..|s| - 1]);
      if rest.Some? && Digit(s[|s| - 1]) then Some(rest.value * 10 + DigitValue(s[|s| - 1])) else None
  }

  predicate Blank(c: char) {
    c == ' ' || c == '\t'
  }

  function TrimStart(s: string): string {
    if s != [] && Blank(s[0]) then TrimStart(s[1..]) else s
  }

  function TrimEnd(s: string): string {
    if s != [] && Blank(s[|s| - 1]) then TrimEnd(s[..|s| - 1]) else s
  }

  /** An unsigned machine integer: digits, at least one, after an optional plus sign. */
  function ParseUsize(s: string): Option<nat> {
    var digits := if s != [] && s[0] == '+' then s[1..] else s;
    if digits == [] then None
    else if Digits(digits).Some? && Digits(digits).value <= USIZE_MAX then Digits(digits)
    else None
  }

  lemma {:induction false} DecimalReads(n: nat)
    ensures Decimal(n) != [] && Digits(Decimal(n)) == Some(n)
    ensures forall c | c in Decimal(n) :: Digit(c)
  {
    if n < 10 {
      assert Decimal(n)[..0] == [];
      assert Digits([]) == Some(0);
    } else {
      DecimalReads(n / 10);
      assert Decimal(n)[..|Decimal(n)| - 1] == Decimal(n / 10);
    }
  }

  /** An id read back from the header, blanks around it included, is the id sent. */
  lemma IdRoundTrip(n: nat, before: string, after: string)
    requires n <= USIZE_MAX
    requires (forall c | c in before :: Blank(c)) && (forall c | c in after :: Blank(c))
    ensures ParseUsize(TrimEnd(TrimStart(before + Decimal(n) + after))) == Some(n)
  {
    DecimalReads(n);
    assert before + Decimal(n) + after == before + (Decimal(n) + after);
    assert (Decimal(n) + after)[0] == Decimal(n)[0] && Decimal(n)[0] in Decimal(n);
    TrimsStart(before, Decimal(n) + after);
    assert Decimal(n)[|Decimal(n)| - 1] in Decimal(n);
    TrimsEnd(Decimal(n), after);
  }

  lemma {:induction false} TrimsStart(blanks: string, s: string)
    requires (forall c | c in blanks :: Blank(c)) && s != [] && !Blank(s[0])
    ensures TrimStart(blanks + s) == s
  {
    if blanks == [] {
      assert blanks + s == s;
    } else {
      assert blanks[0] in blanks && (blanks + s)[1..] == blanks[1..] + s;
      TrimsStart(blanks[1..], s);
    }
  }

  lemma {:induction false} TrimsEnd(s: string, blanks: string)
    requires (forall c | c in blanks :: Blank(c)) && s != [] && !Blank(s[|s| - 1])
    ensures TrimEnd(s + blanks) == s
  {
    if blanks == [] {
      assert s + blanks == s;
    } else {
      var n := |blanks| - 1;
      assert blanks[n] in blanks && (s + blanks)[..|s + blanks| - 1] == s + blanks[..n];
      TrimsEnd(s, blanks[..n]);
    }
  }

  /** A number no machine integer holds is no id. */
  lemma TooLargeIsNoId(n: nat)
    requires n > USIZE_MAX
    ensures ParseUsize(Decimal(n)).None?
  {
    DecimalReads(n);
    assert Decimal(n)[0] in Decimal(n);
  }

  function Later(a: nat, b: nat): nat {
    if a < b then b else a
  }

  function Past(last: Option<nat>): nat {
    match last
    case None => 0
    case Some(id) => if id < USIZE_MAX then id + 1 else USIZE_MAX
  }

  /** One past the later of the ids the client reports; an unreadable header is ignored. */
  function ResumePosition(header: Option<string>, after: Option<nat>): nat {
    var reported := if header.Some? then ParseUsize(TrimEnd(TrimStart(header.value))) else None;
    Later(Past(reported), Past(after))
  }

  // ---------------------------------------------------------------- one stream

  datatype Frame = Frame(id: nat, event: Event)

  function Frames(events: seq<Event>, from: nat, to: nat): (frames: seq<Frame>)
    requires from <= to <= |events|
    ensures |frames| == to - from
    ensures forall i | 0 <= i < |frames| :: frames[i] == Frame(from + i, events[from + i])
  {
    seq(to - from, i requires 0 <= i < to - from => Frame(from + i, events[from + i]))
  }

  datatype Stream = Stream(seen: nat, queue: seq<Frame>, finished: bool)

  /** The position of the next frame a stream sends. */
  function Position(s: Stream): int {
    s.seen - |s.queue|
  }

  /** What a stream holds is the buffer from its position to what it has seen, and it knows
    * of the end only when it has seen all. */
  predicate Consistent(s: Stream, shared: Shared) {
    && 0 <= Position(s) && s.seen <= |shared.events|
    && s.queue == Frames(shared.events, Position(s), s.seen)
    && (s.finished ==> Terminal(shared.status) && s.seen == |shared.events|)
  }

  /** One pull: the next frame if there is one, else the end. */
  function Pulled(s: Stream, shared: Shared): (Option<Frame>, Stream)
    requires s.seen <= |shared.events|
  {
    if s.queue != [] then (Some(s.queue[0]), s.(queue := s.queue[1..]))
    else if s.finished then (None, s)
    else
      var frames := Frames(shared.events, s.seen, |shared.events|);
      var finished := Terminal(shared.status);
      if frames == [] then (None, Stream(s.seen, [], finished))
      else (Some(frames[0]), Stream(|shared.events|, frames[1..], finished))
  }

  /** How a wait for more events ends: the run has something, the timer or the supervisor
    * asks for another look at the subscriber, or nobody is left to ask. */
  datatype Wait = Ready | Nudged | Lost

  /** One turn of a guarded stream: the guard's answer and, if it comes to that, the wait. */
  datatype Turn = Turn(allowed: bool, wait: Wait)

  /** What a stream does, in order; nothing follows `Closed`. */
  datatype Act = Asked(allowed: bool) | Gave(frame: Frame) | Closed

  /** The stream after a wait that returned the run's news. */
  function Refilled(s: Stream, shared: Shared): Stream
    requires s.seen <= |shared.events|
  {
    Stream(|shared.events|, Frames(shared.events, s.seen, |shared.events|), Terminal(shared.status))
  }

  /** One turn of the stream's loop: what it does, the stream after it, and whether the pull
    * is over. A guard is asked first; without one the turn is `None`. */
  function OneTurn(s: Stream, shared: Shared, turn: Option<Turn>): (seq<Act>, Stream, bool)
    requires s.seen <= |shared.events|
  {
    var asked := if turn.Some? then [Asked(turn.value.allowed)] else [];
    if turn.Some? && !turn.value.allowed then (asked + [Closed], s, true)
    else if s.queue != [] then (asked + [Gave(s.queue[0])], s.(queue := s.queue[1..]), true)
    else if s.finished || (turn.Some? && turn.value.wait.Lost?) then (asked + [Closed], s, true)
    else if (turn.Some? && turn.value.wait.Nudged?) || !News(shared, s.seen) then (asked, s, false)
    else if Refilled(s, shared).queue == [] then (asked + [Closed], Refilled(s, shared), true)
    else (asked, Refilled(s, shared), false)
  }

  /** One pull of a guarded stream over these turns; it is still waiting if they run out. */
  function Turned(s: Stream, shared: Shared, turns: seq<Turn>): (seq<Act>, Stream)
    requires s.seen <= |shared.events|
    decreases |turns|
  {
    if turns == [] then ([], s)
    else
      var (acts, t, over) := OneTurn(s, shared, Some(turns[0]));
      if over then (acts, t)
      else
        var (rest, u) := Turned(t, shared, turns[1..]);
        (acts + rest, u)
  }

  /** One pull as what is done. */
  function Once(pull: (Option<Frame>, Stream)): (seq<Act>, Stream) {
    ([if pull.0.Some? then Gave(pull.0.value) else Closed], pull.1)
  }

  /** The stream's cursor. */
  class Cursor {
    var seen: nat
    var queue: seq<Frame>
    var finished: bool

    function Value(): Stream
      reads this
    {
      Stream(seen, queue, finished)
    }

    constructor (start: nat)
      ensures Value() == Stream(start, [], false)
    {
      seen, queue, finished := start, [], false;
    }

    /** Takes over what the run has. */
    method Refill(run: RunState)
      requires queue == [] && !finished && seen <= |run.events| && News(run.Value(), seen)
      modifies this
      ensures Value() == Refilled(old(Value()), run.Value())
    {
      var read := run.ReadFrom(seen);
      var (events, status) := read.value;
      var first := seen;
      seen := seen + |events|;
      queue := queue + seq(|events|, i requires 0 <= i < |events| => Frame(first + i, events[i]));
      assert queue == Frames(run.events, first, |run.events|);
      if Terminal(status) {
        finished := true;
      }
    }

    /** One turn of the loop of `Next`. */
    method Turn(run: RunState, turn: Option<Turn>) returns (acts: seq<Act>, over: bool)
      requires seen <= |run.events|
      modifies this
      ensures (acts, Value(), over) == OneTurn(old(Value()), run.Value(), turn)
      ensures seen <= |run.events|
    {
      acts, over := [], true;
      if turn.Some? {
        acts := [Asked(turn.value.allowed)];
        if !turn.value.allowed {
          return acts + [Closed], true;
        }
      }
      if queue != [] {
        acts := acts + [Gave(queue[0])];
        queue := queue[1..];
        return;
      }
      if finished || (turn.Some? && turn.value.wait.Lost?) {
        return acts + [Closed], true;
      }
      if (turn.None? || turn.value.wait.Ready?) && (|run.events| > seen || Terminal(run.status)) {
        Refill(run);
        if queue == [] && finished {
          return acts + [Closed], true;
        }
      }
      over := false;
    }

    /** The next frame, or the end. `run` is the state a wait returns with, if there is one.
      * A guard, given by its turns, is asked before a frame is handed out and before every
      * wait; without one the wait is for the run alone. */
    method Next(run: RunState, guard: Option<seq<Turn>>) returns (acts: seq<Act>)
      requires seen <= |run.events|
      requires guard.None? && queue == [] && !finished ==> News(run.Value(), seen)
      modifies this
      ensures guard.Some? ==> (acts, Value()) == Turned(old(Value()), run.Value(), guard.value)
      ensures guard.None? ==> (acts, Value()) == Once(Pulled(old(Value()), run.Value()))
    {
      var i, more, over := 0, [], false;
      acts := [];
      if guard.Some? {
        assert guard.value[0..] == guard.value;
        assert acts + Turned(Value(), run.Value(), guard.value).0 == Turned(Value(), run.Value(), guard.value).0;
      }
      while !over && (guard.None? || i < |guard.value|)
        invariant seen <= |run.events|
        invariant guard.Some? ==> i <= |guard.value| && Goes(old(Value()), run.Value(), guard.value, i, acts, Value(), over)
        invariant guard.None? ==>
                    if over then (acts, Value()) == Once(Pulled(old(Value()), run.Value()))
                    else acts == [] && Pulled(Value(), run.Value()) == Pulled(old(Value()), run.Value())
                         && (queue == [] && !finished ==> News(run.Value(), seen))
        decreases !over, if guard.Some? then |guard.value| - i else if queue == [] && !finished then 1 else 0
      {
        ghost var before, so := Value(), acts;
        more, over := Turn(run, if guard.Some? then Some(guard.value[i]) else None);
        acts := acts + more;
        i := i + 1;
        if guard.Some? {
          Going(old(Value()), run.Value(), guard.value, i - 1, so, before);
        } else {
          UnguardedTurn(before, run.Value());
          assert [] + more == more;
        }
      }
    }
  }

  /** What a guarded pull comes to after `i` turns. */
  predicate Goes(s: Stream, shared: Shared, turns: seq<Turn>, i: nat, acts: seq<Act>, t: Stream, over: bool)
    requires s.seen <= |shared.events|
  {
    && i <= |turns| && t.seen <= |shared.events|
    && (if over then (acts, t) == Turned(s, shared, turns)
        else
          var (rest, u) := Turned(t, shared, turns[i..]);
          (acts + rest, u) == Turned(s, shared, turns))
    && (i == |turns| ==> (acts, t) == Turned(s, shared, turns))
  }

  lemma Going(s: Stream, shared: Shared, turns: seq<Turn>, i: nat, acts: seq<Act>, t: Stream)
    requires s.seen <= |shared.events| && i < |turns| && Goes(s, shared, turns, i, acts, t, false)
    ensures var (more, u, over) := OneTurn(t, shared, Some(turns[i])); Goes(s, shared, turns, i + 1, acts + more, u, over)
  {
    var (more, u, over) := OneTurn(t, shared, Some(turns[i]));
    assert turns[i..][0] == turns[i] && turns[i..][1..] == turns[i + 1..];
    if !over {
      var rest := Turned(u, shared, turns[i + 1..]).0;
      assert acts + (more + rest) == acts + more + rest;
      assert i + 1 == |turns| ==> rest == [] && acts + more + rest == acts + more;
    }
  }

  lemma UnguardedTurn(s: Stream, shared: Shared)
    requires s.seen <= |shared.events| && (s.queue == [] && !s.finished ==> News(shared, s.seen))
    ensures var (acts, t, over) := OneTurn(s, shared, None);
            if over then (acts, t) == Once(Pulled(s, shared))
            else acts == [] && t.queue != [] && s.queue == [] && !s.finished && Pulled(t, shared) == Pulled(s, shared)
  {
    var none: seq<Act> := [];
    assert none + [Closed] == [Closed];
    if s.queue != [] {
      assert none + [Gave(s.queue[0])] == [Gave(s.queue[0])];
    }
  }

  /** Over these turns the guard is asked again and again, nothing else happens before the
    * last act, a frame leaves only right after the guard allowed it, and a refusal closes the
    * stream at once. */
  predicate Guarded(acts: seq<Act>, turns: seq<Turn>) {
    && (forall i | 0 <= i < |acts| :: if acts[i].Asked? then i < |turns| && acts[i].allowed == turns[i].allowed else i == |acts| - 1)
    && (forall i | 0 <= i < |acts| && acts[i].Gave? :: i > 0 && acts[i - 1] == Asked(true))
    && (forall i | 0 <= i < |acts| && acts[i] == Asked(false) :: acts[i + 1..] == [Closed])
    && (acts == [] || acts[|acts| - 1].Asked? ==> |acts| == |turns|)
  }

  lemma AllowedThenGuarded(rest: seq<Act>, turns: seq<Turn>)
    requires turns != [] && turns[0].allowed && Guarded(rest, turns[1..])
    requires if |turns| == 1 then rest == [] else rest != [] && rest[0].Asked?
    ensures Guarded([Asked(true)] + rest, turns)
  {
    var acts := [Asked(true)] + rest;
    forall i | 0 <= i < |acts|
      ensures if acts[i].Asked? then i < |turns| && acts[i].allowed == turns[i].allowed else i == |acts| - 1
      ensures acts[i] == Asked(false) ==> acts[i + 1..] == [Closed]
      ensures acts[i].Gave? ==> i > 0 && acts[i - 1] == Asked(true)
    {
      if i > 0 {
        assert acts[i] == rest[i - 1] && acts[i + 1..] == rest[i..] && (i - 1 < |turns| - 1 ==> turns[1..][i - 1] == turns[i]);
        assert i == 1 || acts[i - 1] == rest[i - 2];
      }
    }
  }

  lemma {:induction false} TurnsAreGuarded(s: Stream, shared: Shared, turns: seq<Turn>)
    requires s.seen <= |shared.events|
    ensures Guarded(Turned(s, shared, turns).0, turns)
    ensures turns != [] ==> Turned(s, shared, turns).0 != [] && Turned(s, shared, turns).0[0].Asked?
    decreases |turns|
  {
    if turns != [] {
      var (acts, t, over) := OneTurn(s, shared, Some(turns[0]));
      if !over {
        TurnsAreGuarded(t, shared, turns[1..]);
        AllowedThenGuarded(Turned(t, shared, turns[1..]).0, turns);
      }
    }
  }

  lemma GaveMeansAllowed(acts: seq<Act>, turns: seq<Turn>)
    requires Guarded(acts, turns) && acts != [] && acts[|acts| - 1].Gave?
    ensures forall i | 0 <= i < |acts| - 1 :: acts[i] == Asked(true)
  {
    forall i | 0 <= i < |acts| - 1
      ensures acts[i] == Asked(true)
    {
      assert acts[i + 1..][|acts| - i - 2] == acts[|acts| - 1];
    }
  }

  /** A guarded pull hands out what an unguarded one would, or nothing. */
  lemma {:induction false} GuardOnlyWithholds(s: Stream, shared: Shared, turns: seq<Turn>)
    requires s.seen <= |shared.events|
    ensures var (acts, t) := Turned(s, shared, turns);
            forall i | 0 <= i < |acts| && acts[i].Gave? :: (Some(acts[i].frame), t) == Pulled(s, shared)
    decreases |turns|
  {
    var (acts, t) := Turned(s, shared, turns);
    forall i | 0 <= i < |acts| && acts[i].Gave?
      ensures (Some(acts[i].frame), t) == Pulled(s, shared)
    {
      if s.queue == [] {
        var next := if turns[0].wait.Nudged? || !News(shared, s.seen) then s else Refilled(s, shared);
        GuardOnlyWithholds(next, shared, turns[1..]);
        assert acts[i] == Turned(next, shared, turns[1..]).0[i - 1];
      }
    }
  }

  /** Nor is a subscriber that stays allowed kept waiting: it gets what an unguarded one
    * would as soon as the run has news and the guard is asked once more. */
  lemma {:induction false} AllowedIsServed(s: Stream, shared: Shared, turns: seq<Turn>, k: nat)
    requires s.seen <= |shared.events| && k + 1 < |turns|
    requires forall i | 0 <= i < |turns| :: turns[i].allowed
    requires forall i | 0 <= i < k :: turns[i].wait.Nudged?
    requires turns[k].wait.Ready? && (s.queue == [] && !s.finished ==> News(shared, s.seen))
    ensures var (acts, t) := Turned(s, shared, turns);
            var (frame, u) := Pulled(s, shared);
            acts != [] && t == u && acts[|acts| - 1] == if frame.Some? then Gave(frame.value) else Closed
    decreases k
  {
    if s.queue == [] && !s.finished {
      if k > 0 {
        AllowedIsServed(s, shared, turns[1..], k - 1);
      } else {
        assert turns[1..][0] == turns[1];
      }
    }
  }

  /** A pull of a consistent stream yields the frame at its position and moves past it, or
    * ends exactly when the run is over and everything was sent. */
  lemma PullKeeps(s: Stream, shared: Shared)
    requires Consistent(s, shared)
    requires s.queue == [] && !s.finished ==> News(shared, s.seen)
    ensures var (frame, t) := Pulled(s, shared);
            && Consistent(t, shared)
            && (frame.Some? ==> Position(s) < |shared.events| && frame.value == Frame(Position(s), shared.events[Position(s)])
                                && Position(t) == Position(s) + 1)
            && (frame.None? <==> Terminal(shared.status) && Position(s) == |shared.events|)
  {
    var (frame, t) := Pulled(s, shared);
    if s.queue != [] {
      assert t.queue == Frames(shared.events, Position(t), t.seen);
    } else if !s.finished {
      var frames := Frames(shared.events, s.seen, |shared.events|);
      if frames != [] {
        assert frames[1..] == Frames(shared.events, s.seen + 1, |shared.events|);
      }
    }
  }

  lemma GrowthKeeps(s: Stream, old_: Shared, new_: Shared)
    requires Consistent(s, old_)
    requires old_.events <= new_.events && (Terminal(old_.status) ==> new_ == old_)
    ensures Consistent(s, new_)
  {
    assert Frames(new_.events, Position(s), s.seen) == Frames(old_.events, Position(s), s.seen);
  }

  // ---------------------------------------------------------------- a guarded stream

  /** One pull: the run as its wait finds it, and the guard's turns. */
  datatype Pulling = Pulling(shared: Shared, turns: seq<Turn>)

  /** What a guarded stream does over these pulls: the next one comes after a frame. */
  function Served(s: Stream, pulls: seq<Pulling>): seq<Act>
    decreases |pulls|
  {
    if pulls == [] || s.seen > |pulls[0].shared.events| then []
    else
      var (acts, t) := Turned(s, pulls[0].shared, pulls[0].turns);
      if acts == [] || !acts[|acts| - 1].Gave? then acts else acts + Served(t, pulls[1..])
  }

  /** A frame only right after the guard allowed it, nothing but the end after a refusal, and
    * nothing at all after the end. */
  predicate Lawful(acts: seq<Act>) {
    && (forall i | 0 <= i < |acts| && acts[i].Gave? :: i > 0 && acts[i - 1] == Asked(true))
    && (forall i | 0 <= i < |acts| && acts[i] == Asked(false) :: acts[i + 1..] == [Closed])
    && (forall i | 0 <= i < |acts| && acts[i].Closed? :: i == |acts| - 1)
  }

  lemma LawfulJoins(a: seq<Act>, b: seq<Act>)
    requires Lawful(a) && Lawful(b)
    requires forall i | 0 <= i < |a| - 1 :: a[i] == Asked(true)
    requires a != [] && a[|a| - 1].Gave?
    ensures Lawful(a + b)
  {
    forall i | 0 <= i < |a + b| && (a + b)[i] == Asked(false)
      ensures (a + b)[i + 1..] == [Closed]
    {
      assert i >= |a| && (a + b)[i + 1..] == b[i - |a| + 1..];
    }
  }

  /** No frame leaves a guarded stream but right after the guard allowed it, and after the
    * first refusal nothing does: the stream ends at once. */
  lemma {:induction false} RefusalEndsTheStream(s: Stream, pulls: seq<Pulling>)
    ensures Lawful(Served(s, pulls))
    decreases |pulls|
  {
    if pulls != [] && s.seen <= |pulls[0].shared.events| {
      var (first, t) := Turned(s, pulls[0].shared, pulls[0].turns);
      TurnsAreGuarded(s, pulls[0].shared, pulls[0].turns);
      assert Lawful(first);
      if first != [] && first[|first| - 1].Gave? {
        RefusalEndsTheStream(t, pulls[1..]);
        GaveMeansAllowed(first, pulls[0].turns);
        LawfulJoins(first, Served(t, pulls[1..]));
      }
    }
  }

  function Given(acts: seq<Act>): seq<Frame> {
    if acts == [] then []
    else Given(acts[..|acts| - 1]) + if acts[|acts| - 1].Gave? then [acts[|acts| - 1].frame] else []
  }

  /** Each pull finds what the one before it found, or more, and a finished run as it was. */
  predicate Growing(pulls: seq<Pulling>, last: Shared) {
    && (forall i | 0 <= i < |pulls| :: pulls[i].shared.events <= last.events)
    && (forall i | 0 < i < |pulls| ::
          && pulls[i - 1].shared.events <= pulls[i].shared.events
          && (Terminal(pulls[i - 1].shared.status) ==> pulls[i].shared == pulls[i - 1].shared))
  }

  lemma {:induction false} GivenJoins(a: seq<Act>, b: seq<Act>)
    ensures Given(a + b) == Given(a) + Given(b)
    decreases |b|
  {
    if b == [] {
      assert a + b == a;
    } else {
      assert (a + b)[..|a + b| - 1] == a + b[..|b| - 1];
      GivenJoins(a, b[..|b| - 1]);
    }
  }

  lemma {:induction false} NothingGiven(acts: seq<Act>)
    requires forall i | 0 <= i < |acts| :: !acts[i].Gave?
    ensures Given(acts) == []
  {
    if acts != [] {
      NothingGiven(acts[..|acts| - 1]);
    }
  }

  /** A guarded pull gives the frame at the stream's position, if any. */
  lemma GivenByOne(s: Stream, shared: Shared, turns: seq<Turn>)
    requires Consistent(s, shared)
    ensures var (acts, t) := Turned(s, shared, turns);
            if acts != [] && acts[|acts| - 1].Gave?
            then Consistent(t, shared) && Position(t) == Position(s) + 1 <= |shared.events|
                 && Given(acts) == [Frame(Position(s), shared.events[Position(s)])]
            else Given(acts) == []
  {
    var (acts, t) := Turned(s, shared, turns);
    TurnsAreGuarded(s, shared, turns);
    if acts != [] && acts[|acts| - 1].Gave? {
      GuardOnlyWithholds(s, shared, turns);
      PullKeeps(s, shared);
      NothingGiven(acts[..|acts| - 1]);
    } else {
      NothingGiven(acts);
    }
  }

  lemma FramesJoin(events: seq<Event>, from: nat, n: nat)
    requires from + 1 + n <= |events|
    ensures [Frame(from, events[from])] + Frames(events, from + 1, from + 1 + n) == Frames(events, from, from + 1 + n)
  {
  }

  lemma NextFinds(t: Stream, pulls: seq<Pulling>, last: Shared)
    requires Growing(pulls, last) && pulls != [] && Consistent(t, pulls[0].shared)
    ensures Growing(pulls[1..], last)
    ensures if |pulls| > 1 then Consistent(t, pulls[1..][0].shared) else 0 <= Position(t) <= |last.events|
  {
    if |pulls| > 1 {
      GrowthKeeps(t, pulls[0].shared, pulls[1].shared);
    }
  }

  /** What a guarded stream gives, until it is refused or ends, is the buffer from its
    * position on, every event once and in order. */
  lemma {:induction false} GivenIsTheBuffer(s: Stream, pulls: seq<Pulling>, last: Shared)
    requires Growing(pulls, last)
    requires if pulls != [] then Consistent(s, pulls[0].shared) else 0 <= Position(s) <= |last.events|
    ensures IsStretch(last.events, Position(s), Given(Served(s, pulls)))
    decreases |pulls|
  {
    if pulls != [] {
      var (first, t) := Turned(s, pulls[0].shared, pulls[0].turns);
      GivenByOne(s, pulls[0].shared, pulls[0].turns);
      if first != [] && first[|first| - 1].Gave? {
        NextFinds(t, pulls, last);
        GivenIsTheBuffer(t, pulls[1..], last);
        GivenJoins(first, Served(t, pulls[1..]));
        FramesJoin(last.events, Position(s), |Given(Served(t, pulls[1..]))|);
      }
    }
  }

  /** These are the frames of `events` from that position on, as far as they go. */
  predicate IsStretch(events: seq<Event>, from: int, frames: seq<Frame>) {
    0 <= from <= from + |frames| <= |events| && frames == Frames(events, from, from + |frames|)
  }

  // ---------------------------------------------------------------- a client that resumes

  /** `received` is everything the client got over all its streams; `over` says that its
    * last stream ended by itself. */
  datatype World = World(life: Lifecycle.Life, stream: Option<Stream>, received: seq<Frame>, over: bool)

  datatype Step =
    | Change(step: Lifecycle.Step)
    | Connect(header: Option<nat>, after: Option<nat>)
    | Pull(arrives: bool) // a frame sent may be lost with the connection
    | Drop

  /** What a client reports: nothing before its first frame, later the last id it has, in
    * the header or the query, an older one in the other place at most. */
  predicate Reports(received: nat, header: Option<nat>, after: Option<nat>) {
    if received == 0 then header.None? && after.None?
    else
      && (header.Some? ==> header.value < received)
      && (after.Some? ==> after.value < received)
      && (header == Some((received - 1) as nat) || after == Some((received - 1) as nat))
  }

  predicate Possible(w: World, step: Step) {
    match step
    case Change(change) => Lifecycle.Enabled(w.life, change)
    // Positions are machine integers.
    case Connect(header, after) =>
      w.stream.None? && |w.life.shared.events| < USIZE_MAX && Reports(|w.received|, header, after)
    case Pull(_) =>
      w.stream.Some? && w.stream.value.seen <= |w.life.shared.events|
      && (w.stream.value.queue != [] || w.stream.value.finished || News(w.life.shared, w.stream.value.seen))
    case Drop => w.stream.Some?
  }

  function Header(header: Option<nat>): Option<string> {
    if header.Some? then Some(Decimal(header.value)) else None
  }

  /** Where a new stream starts: a cursor past the buffer resumes at its end. */
  function Start(events: nat, header: Option<nat>, after: Option<nat>): nat {
    var position := ResumePosition(Header(header), after);
    if position <= events then position else events
  }

  function Apply(w: World, step: Step): World {
    if !Possible(w, step) then w else
    match step
    case Change(change) => w.(life := Lifecycle.Apply(w.life, change))
    case Connect(header, after) =>
      w.(stream := Some(Stream(Start(|w.life.shared.events|, header, after), [], false)), over := false)
    case Pull(arrives) =>
      var (frame, stream) := Pulled(w.stream.value, w.life.shared);
      if frame.None? then w.(stream := None, over := true)
      else if arrives then w.(stream := Some(stream), received := w.received + [frame.value])
      else w.(stream := None)
    case Drop => w.(stream := None)
  }

  function Run(w: World, steps: seq<Step>): World
    decreases |steps|
  {
    if steps == [] then w else Run(Apply(w, steps[0]), steps[1..])
  }

  function Begun(pausing: bool): World {
    World(Lifecycle.Launched(pausing), None, [], false)
  }

  ghost predicate Inv(w: World) {
    && Lifecycle.Inv(w.life)
    && |w.received| <= |w.life.shared.events|
    && w.received == Frames(w.life.shared.events, 0, |w.received|)
    && (w.stream.Some? ==> Consistent(w.stream.value, w.life.shared) && Position(w.stream.value) == |w.received|)
    && (w.over ==> w.stream.None? && Terminal(w.life.shared.status) && |w.received| == |w.life.shared.events|)
  }

  lemma ResumesExactly(received: nat, header: Option<nat>, after: Option<nat>)
    requires received <= USIZE_MAX && Reports(received, header, after)
    ensures ResumePosition(Header(header), after) == received
  {
    if header.Some? {
      IdRoundTrip(header.value, [], []);
      assert [] + Decimal(header.value) + [] == Decimal(header.value);
    }
  }

  lemma ChangeKeeps(w: World, change: Lifecycle.Step)
    requires Inv(w) && Lifecycle.Enabled(w.life, change)
    ensures Inv(w.(life := Lifecycle.Apply(w.life, change)))
  {
    var l, m := w.life, Lifecycle.Apply(w.life, change);
    Lifecycle.InvStep(l, change);
    Lifecycle.BufferGrows(l, [change]);
    assert Lifecycle.Run(l, [change]) == Lifecycle.Run(m, []) == m;
    if Terminal(l.shared.status) {
      Lifecycle.TerminalStep(l, change);
    }
    assert Frames(m.shared.events, 0, |w.received|) == Frames(l.shared.events, 0, |w.received|);
    if w.stream.Some? {
      GrowthKeeps(w.stream.value, l.shared, m.shared);
    }
  }

  lemma InvStep(w: World, step: Step)
    requires Inv(w)
    ensures Inv(Apply(w, step))
  {
    if Possible(w, step) {
      match step {
        case Change(change) =>
          ChangeKeeps(w, change);
        case Connect(header, after) =>
          ResumesExactly(|w.received|, header, after);
        case Pull(arrives) =>
          PullKeeps(w.stream.value, w.life.shared);
          var n := |w.received|;
          if n < |w.life.shared.events| {
            assert Frames(w.life.shared.events, 0, n + 1) == Frames(w.life.shared.events, 0, n) + [Frame(n, w.life.shared.events[n])];
          }
        case Drop =>
      }
    }
  }

  lemma {:induction false} InvRun(w: World, steps: seq<Step>)
    requires Inv(w)
    ensures Inv(Run(w, steps))
    decreases |steps|
  {
    if steps != [] {
      InvStep(w, steps[0]);
      InvRun(Apply(w, steps[0]), steps[1..]);
    }
  }

  /** A stream lost, or lost with the frame on its way, is gone and the client has what it had;
    * it can then connect again with the last id it has. */
  lemma LostStreamsResume(w: World, step: Step)
    requires Inv(w) && Possible(w, step) && (step == Drop || step == Pull(false)) && |w.life.shared.events| < USIZE_MAX
    ensures var x := Apply(w, step);
            var header := if w.received == [] then None else Some((|w.received| - 1) as nat);
            && x.stream.None? && x.received == w.received && x.life == w.life
            && Possible(x, Connect(header, None))
            && Apply(x, Connect(header, None)).stream == Some(Stream(|w.received|, [], false))
  {
    var header := if w.received == [] then None else Some((|w.received| - 1) as nat);
    ResumesExactly(|w.received|, header, None);
  }

  /** The steps of the run among these. */
  function Changes(steps: seq<Step>): seq<Lifecycle.Step> {
    if steps == [] then []
    else (if steps[0].Change? then [steps[0].step] else []) + Changes(steps[1..])
  }

  /** Streams and clients do not hold the run up: it goes on as it would without them. */
  lemma {:induction false} TheRunGoesOn(w: World, steps: seq<Step>)
    ensures Run(w, steps).life == Lifecycle.Run(w.life, Changes(steps))
    decreases |steps|
  {
    if steps != [] {
      TheRunGoesOn(Apply(w, steps[0]), steps[1..]);
      if steps[0].Change? {
        assert Changes(steps)[1..] == Changes(steps[1..]);
      } else {
        assert Changes(steps) == Changes(steps[1..]);
      }
    }
  }

  /** However often a client's stream is lost and resumed, its frames put together are the
    * buffer from position 0, none repeated and none skipped; and when a stream ends by
    * itself the client has every event the run ever sent. */
  lemma FramesAreTheBuffer(pausing: bool, steps: seq<Step>)
    ensures var w := Run(Begun(pausing), steps);
            && |w.received| <= |w.life.shared.events|
            && (forall i | 0 <= i < |w.received| :: w.received[i] == Frame(i, w.life.shared.events[i]))
            && (w.over ==> |w.received| == |w.life.emitted| && Terminal(w.life.shared.status))
  {
    assert Inv(Begun(pausing));
    InvRun(Begun(pausing), steps);
    var w := Run(Begun(pausing), steps);
    if w.over {
      assert w.life.shared.events + [] + [] == w.life.shared.events;
    }
  }

  /** A client that reconnects after the end is served what it misses, if anything, and the
    * stream ends: it never hangs. */
  lemma ReconnectingFinishes(w: World, header: Option<nat>, after: Option<nat>)
    requires Inv(w) && Terminal(w.life.shared.status)
    requires Possible(w, Connect(header, after))
    ensures var missing := |w.life.shared.events| - |w.received|;
            var x := Run(Apply(w, Connect(header, after)), seq(missing + 1, i => Pull(true)));
            x.over && |x.received| == |w.life.shared.events|
  {
    InvStep(w, Connect(header, after));
    Drain(Apply(w, Connect(header, after)));
  }

  lemma {:induction false} Drain(w: World)
    requires Inv(w) && Terminal(w.life.shared.status) && w.stream.Some?
    ensures var missing := |w.life.shared.events| - |w.received|;
            var x := Run(w, seq(missing + 1, i => Pull(true)));
            x.over && |x.received| == |w.life.shared.events|
    decreases |w.life.shared.events| - |w.received|
  {
    var missing := |w.life.shared.events| - |w.received|;
    var steps := seq(missing + 1, i => Pull(true));
    PullKeeps(w.stream.value, w.life.shared);
    InvStep(w, Pull(true));
    var next := Apply(w, Pull(true));
    assert steps[0] == Pull(true);
    assert steps[1..] == seq(missing, i => Pull(true));
    if missing > 0 {
      assert missing == (missing - 1) + 1;
      Drain(next);
      assert |next.life.shared.events| - |next.received| == missing - 1;
    } else {
      assert Run(next, []) == next;
    }
  }
}
