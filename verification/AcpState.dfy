/** What the editor server keeps for all its sessions: which are open, which are busy,
  * the permission waiters and the one ordered stream of outbound messages.
  *
  * Each function on `State` is one section done under a lock, or one message handed to
  * the writer; the class `Server` does the same in place.
  */
module AcpState {
  import opened Wrappers
  import opened Runs
  import SessionData

  const NO_METHOD := -32601
  const INVALID := -32602
  const INTERNAL := -32603

  // Reasoning and tool call requests are the `Note`s that a client sees.
  const REASONING := 1
  const TOOL_REQUESTED := 2

  // ---------------------------------------------------------------- messages

  /** What a `session/update` carries: an event of a live run, or a saved message. */
  datatype Item = Live(event: Event) | Replayed(message: SessionData.Message)

  datatype Told = Cancelled | Refusal | MaxTurnRequests | MaxTokens | EndTurn

  datatype Outcome = Done | Stopped(told: Told) | Failed(code: int)

  /** An outbound message, tagged with the inbound request it is sent for. */
  datatype Msg =
    | Update(request: nat, item: Item)
    | Reply(request: nat, id: string, outcome: Outcome)
    | Permission(request: nat, permission: int, approval: string)

  predicate Visible(e: Event) {
    e.Content? || e.ToolCallStarted? || e.ToolCallCompleted? || e.Failure?
    || (e.Note? && (e.tag == REASONING || e.tag == TOOL_REQUESTED))
  }

  /** The updates that a stretch of a run's events gives rise to. */
  function Updates(events: seq<Event>): seq<Item> {
    if events == [] then []
    else
      var last := events[|events| - 1];
      Updates(events[..|events| - 1]) + if Visible(last) then [Live(last)] else []
  }

  /** The updates that replaying a saved transcript gives rise to. */
  function Replays(messages: seq<SessionData.Message>): seq<Item> {
    if messages == [] then []
    else (if messages[0].role.OtherRole? then [] else [Replayed(messages[0])]) + Replays(messages[1..])
  }

  function Tagged(request: nat, items: seq<Item>): seq<Msg> {
    seq(|items|, i requires 0 <= i < |items| => Update(request, items[i]))
  }

  lemma UpdatesPrefix(events: seq<Event>, n: nat)
    requires n < |events|
    ensures Updates(events[..n + 1]) == Updates(events[..n]) + if Visible(events[n]) then [Live(events[n])] else []
    ensures LastReason(events[..n + 1]) == if events[n].RunCompleted? then Some(events[n].reason) else LastReason(events[..n])
  {
    assert events[..n + 1][..n] == events[..n];
  }

  function StopReasonTold(reason: StopReason): Told {
    match reason
    case Cancelled => Told.Cancelled
    case MaxTurns => MaxTurnRequests
    case MaxTokens => Told.MaxTokens
    case OutputBudget => Told.MaxTokens
    case Error => Refusal
    case Incomplete => Refusal
    case _ => Told.EndTurn
  }

  /** How a prompt's run ended: its terminal status first, then its last reason. */
  function Ending(status: RunStatus, reason: StopReason): Told {
    match status
    case WasCancelled => Told.Cancelled
    case Failed => Refusal
    case _ => StopReasonTold(reason)
  }

  /** What the client is told in the end: it was cancelled if the run or its last reason says
    * so, refused if it failed or gave up, stopped by a limit of turns or tokens, or done. */
  lemma EndingExactly(status: RunStatus, reason: StopReason)
    ensures var told := Ending(status, reason);
            var ran := !status.WasCancelled? && !status.Failed?;
            && (told == Told.Cancelled <==> status.WasCancelled? || (ran && reason.Cancelled?))
            && (told == Refusal <==> status.Failed? || (ran && (reason.Error? || reason.Incomplete?)))
            && (told == MaxTurnRequests <==> ran && reason.MaxTurns?)
            && (told == Told.MaxTokens <==> ran && (reason.MaxTokens? || reason.OutputBudget?))
            && (told == Told.EndTurn <==>
                  ran && (reason.EndTurn? || reason.MaxToolCalls? || reason.RepeatedToolCalls? || reason.WallClockExceeded? || reason.ContextLimit?))
  {
  }

  /** A client sees all of a run but its start, its pauses, its end and other notes. */
  lemma HiddenExactly(e: Event)
    ensures !Visible(e) <==>
              || e.RunStarted? || e.AwaitingApproval? || e.WallClockPaused? || e.RunCompleted?
              || (e.Note? && e.tag !in {REASONING, TOOL_REQUESTED})
  {
  }

  // ---------------------------------------------------------------- the sessions

  /** `active` is the run a cancel would stop, named by the request that started it. */
  datatype Open = Open(stored: bool, busy: bool, active: Option<nat>, lease: bool)

  datatype State = State(sessions: map<string, Open>, waiters: map<int, nat>, nextId: int, outbound: seq<Msg>)

  function Sent(v: State, m: Msg): State {
    v.(outbound := v.outbound + [m])
  }

  /** How the store of a new session turned out. */
  datatype Store = NoProfile | InMemory | Saving(ok: bool)

  function NewOutcome(store: Store): Outcome {
    match store
    case NoProfile => Outcome.Failed(INVALID)
    case InMemory => Done
    case Saving(ok) => if ok then Done else Outcome.Failed(INTERNAL)
  }

  function Opened(v: State, session: string, store: Store): State {
    if NewOutcome(store).Done? then v.(sessions := v.sessions[session := Open(store.Saving?, false, None, false)]) else v
  }

  /** What looking for a session to load came to. */
  datatype Found = Disabled | Missing | Malformed | Unloadable | OtherFolder | Loaded(messages: seq<SessionData.Message>)

  predicate Busy(v: State, session: string) {
    session in v.sessions && v.sessions[session].busy
  }

  function LoadOutcome(v: State, session: string, found: Found): Outcome {
    match found
    case Disabled => Outcome.Failed(NO_METHOD)
    case Loaded(_) => if Busy(v, session) then Outcome.Failed(INVALID) else Done
    case _ => Outcome.Failed(INVALID)
  }

  function Reopened(v: State, session: string, found: Found): State {
    if LoadOutcome(v, session, found).Done?
    then v.(sessions := v.sessions[session := Open(true, false, None, false)])
    else v
  }

  /** Why a prompt is refused, if it is. `free` says whether the run lease can be taken and
    * `saved` whether the prompt can be saved; neither is asked for a session in memory. */
  function Refused(v: State, session: Option<string>, free: bool, saved: bool): Option<int> {
    if session.None? || session.value !in v.sessions then Some(INVALID)
    else
      var s := v.sessions[session.value];
      if s.busy || (s.stored && !free) then Some(INVALID)
      else if s.stored && !saved then Some(INTERNAL)
      else None
  }

  function Begun(v: State, session: string): State
    requires session in v.sessions
  {
    var s := v.sessions[session];
    v.(sessions := v.sessions[session := s.(busy := true, lease := s.stored)])
  }

  function Activated(v: State, session: string, run: nat): State {
    if session in v.sessions
    then v.(sessions := v.sessions[session := v.sessions[session].(active := Some(run))])
    else v
  }

  /** The end of a prompt: everything is given up whether or not the run could be saved. */
  function Released(v: State, session: string): State {
    if session in v.sessions
    then v.(sessions := v.sessions[session := v.sessions[session].(active := None, busy := false, lease := false)])
    else v
  }

  function Awaiting(v: State, permission: int, request: nat): State {
    v.(waiters := v.waiters[permission := request])
  }

  function Unawaited(v: State, permission: int): State {
    v.(waiters := v.waiters - {permission})
  }

  class Server {
    var sessions: map<string, Open>
    var waiters: map<int, nat>
    var nextId: int
    var outbound: seq<Msg>

    function Get(): State
      reads this
    {
      State(sessions, waiters, nextId, outbound)
    }

    constructor ()
      ensures Get() == State(map[], map[], 1, [])
    {
      sessions, waiters, nextId, outbound := map[], map[], 1, [];
    }

    method Send(m: Msg)
      modifies this`outbound
      ensures Get() == Sent(old(Get()), m) && outbound == old(outbound) + [m]
    {
      outbound := outbound + [m];
    }

    /** Forwards a batch of a run's events; the last reason among them replaces the old one. */
    method ForwardBatch(request: nat, events: seq<Event>, reason: StopReason) returns (last: StopReason)
      modifies this`outbound
      ensures outbound == old(outbound) + Tagged(request, Updates(events))
      ensures Some(last) == if LastReason(events).None? then Some(reason) else LastReason(events)
    {
      last := reason;
      for n := 0 to |events|
        invariant outbound == old(outbound) + Tagged(request, Updates(events[..n]))
        invariant Some(last) == if LastReason(events[..n]).None? then Some(reason) else LastReason(events[..n])
      {
        UpdatesPrefix(events, n);
        if events[n].RunCompleted? {
          last := events[n].reason;
        }
        if Visible(events[n]) {
          outbound := outbound + [Update(request, Live(events[n]))];
        }
      }
      assert events[..|events|] == events;
    }

    /** Replays a transcript before the load is answered; the last message sent is the answer. */
    method ReplayTranscript(request: nat, id: string, messages: seq<SessionData.Message>)
      modifies this`outbound
      ensures outbound == old(outbound) + Tagged(request, Replays(messages)) + [Reply(request, id, Done)]
    {
      for n := 0 to |messages|
        invariant outbound + Tagged(request, Replays(messages[n..])) == old(outbound) + Tagged(request, Replays(messages))
      {
        assert messages[n..][1..] == messages[n + 1..];
        if !messages[n].role.OtherRole? {
          assert Tagged(request, Replays(messages[n..]))
              == [Update(request, Replayed(messages[n]))] + Tagged(request, Replays(messages[n + 1..]));
          outbound := outbound + [Update(request, Replayed(messages[n]))];
        }
      }
      outbound := outbound + [Reply(request, id, Done)];
    }

    method OpenNew(session: string, store: Store) returns (outcome: Outcome)
      modifies this`sessions
      ensures outcome == NewOutcome(store) && Get() == Opened(old(Get()), session, store)
      ensures outcome == (if store.NoProfile? then Outcome.Failed(INVALID) else if store == Saving(false) then Outcome.Failed(INTERNAL) else Done)
      ensures sessions == if outcome.Done? then old(sessions)[session := Open(store != InMemory, false, None, false)] else old(sessions)
    {
      match store {
        case NoProfile => return Outcome.Failed(INVALID);
        case Saving(ok) =>
          if !ok {
            return Outcome.Failed(INTERNAL);
          }
          sessions := sessions[session := Open(true, false, None, false)];
        case InMemory =>
          sessions := sessions[session := Open(false, false, None, false)];
      }
      outcome := Done;
    }

    /** A busy session is never replaced: it stays as it was and the load fails. */
    method Load(session: string, found: Found) returns (outcome: Outcome)
      modifies this`sessions
      ensures outcome == LoadOutcome(old(Get()), session, found) && Get() == Reopened(old(Get()), session, found)
      ensures outcome.Done? <==> found.Loaded? && !(session in old(sessions) && old(sessions)[session].busy)
      ensures outcome.Failed? ==> sessions == old(sessions) && outcome.code == if found.Disabled? then NO_METHOD else INVALID
      ensures outcome.Done? ==> sessions == old(sessions)[session := Open(true, false, None, false)]
      ensures outcome.Done? || outcome.Failed?
    {
      match found {
        case Disabled => return Outcome.Failed(NO_METHOD);
        case Loaded(_) =>
          if session in sessions && sessions[session].busy {
            return Outcome.Failed(INVALID);
          }
          sessions := sessions[session := Open(true, false, None, false)];
          outcome := Done;
        case _ => return Outcome.Failed(INVALID);
      }
    }

    /** Takes the session for a prompt, or says why not and leaves everything as it was. */
    method BeginPrompt(session: Option<string>, free: bool, saved: bool) returns (refusal: Option<int>)
      modifies this`sessions
      ensures refusal == old(Refused(Get(), session, free, saved))
      ensures refusal.Some? ==> Get() == old(Get())
      ensures refusal.None? ==>
                session.Some? && session.value in old(sessions) && Get() == Begun(old(Get()), session.value)
      ensures var known := session.Some? && session.value in old(sessions);
              && (refusal == Some(INVALID) <==>
                    !known || old(sessions)[session.value].busy || (old(sessions)[session.value].stored && !free))
              && (refusal == Some(INTERNAL) <==>
                    known && !old(sessions)[session.value].busy && old(sessions)[session.value].stored && free && !saved)
              && (refusal in {None, Some(INVALID), Some(INTERNAL)})
      ensures refusal.None? ==>
                var s := old(sessions)[session.value];
                sessions == old(sessions)[session.value := Open(s.stored, true, s.active, s.stored)]
    {
      if session.None? {
        return Some(INVALID);
      }
      var name := session.value;
      if name !in sessions {
        return Some(INVALID);
      }
      var s := sessions[name];
      if s.busy {
        return Some(INVALID);
      }
      var lease := false;
      if s.stored {
        if !free {
          return Some(INVALID);
        }
        lease := true;
        if !saved {
          return Some(INTERNAL);
        }
      }
      sessions := sessions[name := s.(busy := true, lease := lease)];
      refusal := None;
    }

    method SetActive(session: string, run: nat)
      modifies this`sessions
      ensures Get() == Activated(old(Get()), session, run)
      ensures session in old(sessions) ==>
                var s := old(sessions)[session];
                sessions == old(sessions)[session := Open(s.stored, s.busy, Some(run), s.lease)]
      ensures session !in old(sessions) ==> sessions == old(sessions)
    {
      if session in sessions {
        sessions := sessions[session := sessions[session].(active := Some(run))];
      }
    }

    /** Saves the run, or fails to, and gives the session up either way. */
    method Release(session: string, saved: bool) returns (failed: bool)
      modifies this`sessions
      ensures Get() == Released(old(Get()), session)
      ensures session in old(sessions) ==>
                sessions == old(sessions)[session := Open(old(sessions)[session].stored, false, None, false)]
      ensures session !in old(sessions) ==> sessions == old(sessions)
      ensures failed <==> session in old(sessions) && old(sessions)[session].stored && !saved
    {
      failed := false;
      if session in sessions {
        var s := sessions[session];
        failed := s.stored && !saved;
        s := s.(active := None);
        s := s.(busy := false);
        s := s.(lease := false);
        sessions := sessions[session := s];
      }
    }

    method TakeId() returns (id: int)
      modifies this`nextId
      ensures id == old(nextId) && Get() == old(Get()).(nextId := id + 1)
    {
      id := nextId;
      nextId := nextId + 1;
    }

    method Await(permission: int, request: nat)
      modifies this`waiters
      ensures Get() == Awaiting(old(Get()), permission, request)
      ensures waiters == old(waiters)[permission := request]
    {
      waiters := waiters[permission := request];
    }

    /** The reader's half of an answer: takes the waiter out, if there is one. */
    method TakeWaiter(permission: int) returns (request: Option<nat>)
      modifies this`waiters
      ensures Get() == Unawaited(old(Get()), permission)
      ensures request == if permission in old(waiters) then Some(old(waiters)[permission]) else None
      ensures waiters == old(waiters) - {permission}
    {
      if permission !in waiters {
        return None;
      }
      request := Some(waiters[permission]);
      waiters := waiters - {permission};
    }
  }
}
