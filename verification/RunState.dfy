/** The state of one run as its observers see it: an append-only event buffer, a
  * status, a pending approval and a queue of continuations, each behind a lock.
  *
  * `Shared` is the value of those fields. The functions on it say what one locked
  * section does; the class `RunState` performs the same sections in place and is
  * proved against them. What interleavings of these sections guarantee is proved in
  * `Lifecycle` and `Observers`.
  */
module Runs {

  import opened Wrappers

  datatype StopReason =
    | EndTurn | MaxTurns | MaxToolCalls | RepeatedToolCalls | WallClockExceeded | MaxTokens
    | ContextLimit | OutputBudget | Incomplete | Cancelled | Error

  /** The events the manager tells apart; `Note` stands for every other one. */
  datatype Event =
    | RunStarted(run: string)
    | Content(text: string)
    | ToolCallStarted(call: string)
    | ToolCallCompleted(call: string)
    | AwaitingApproval(approval: string)
    | WallClockPaused
    | Failure(message: string)
    | RunCompleted(reason: StopReason)
    | Note(tag: int)

  datatype RunStatus =
    | Running | AwaitingDecision | AwaitingContinue | Completed | WasCancelled | Failed

  datatype Continuation = Extend | WrapUp

  predicate Terminal(status: RunStatus) {
    status.Completed? || status.WasCancelled? || status.Failed?
  }

  datatype Shared = Shared(
    events: seq<Event>,
    status: RunStatus,
    pending: Option<string>,
    continues: seq<Continuation>,
    receiving: bool) // whether the receiving half of `continues` still exists

  function Pushed(s: Shared, event: Event): Shared {
    s.(events := s.events + [event])
  }

  /** `continue_with` hands over a continuation exactly to a paused run that can take it. */
  predicate Continuable(s: Shared) {
    s.status.AwaitingContinue? && s.receiving
  }

  /** Whether `continue_with` takes a continuation of a run whose authorization is `revoked`
    * or not. */
  predicate Takes(s: Shared, revoked: bool) {
    !revoked && Continuable(s)
  }

  function Continued(s: Shared, how: Continuation): Shared {
    if Continuable(s) then s.(continues := s.continues + [how], status := Running) else s
  }

  /** Whether a read from `seen` has something to return. */
  predicate News(s: Shared, seen: nat) {
    |s.events| > seen || Terminal(s.status)
  }

  /** What such a read returns: the buffer past `seen`, clamped to its end. */
  function After(s: Shared, seen: nat): seq<Event> {
    s.events[if seen <= |s.events| then seen else |s.events|..]
  }

  /** The reason of the last `RunCompleted`, if any: what a finished run reports. */
  function LastReason(events: seq<Event>): Option<StopReason> {
    if events == [] then None
    else if events[|events| - 1].RunCompleted? then Some(events[|events| - 1].reason)
    else LastReason(events[..|events| - 1])
  }

  /** The last terminal event of `events` is at `i`. */
  predicate EndsAt(events: seq<Event>, i: int) {
    0 <= i < |events| && events[i].RunCompleted? && forall j | i < j < |events| :: !events[j].RunCompleted?
  }

  /** `LastReason` is `None` exactly without a terminal event, and otherwise the
    * reason of the last one. */
  lemma {:induction false} LastReasonIsLast(events: seq<Event>)
    ensures LastReason(events).None? <==> forall i | 0 <= i < |events| :: !events[i].RunCompleted?
    ensures forall i | EndsAt(events, i) :: LastReason(events) == Some(events[i].reason)
  {
    if events != [] {
      var last := |events| - 1;
      LastReasonIsLast(events[..last]);
      forall i | EndsAt(events, i) && i < last
        ensures LastReason(events) == Some(events[i].reason)
      {
        assert EndsAt(events[..last], i);
      }
    }
  }

  class RunState {
    var events: seq<Event>
    var status: RunStatus
    var pending: Option<string>
    var continues: seq<Continuation>
    var receiving: bool
    var revoked: bool
    /** How many times waiters were notified. */
    var notified: nat

    function Value(): Shared
      reads this
    {
      Shared(events, status, pending, continues, receiving)
    }

    constructor ()
      ensures Value() == Shared([], Running, None, [], true)
      ensures !revoked && notified == 0
    {
      events, status, pending, continues := [], Running, None, [];
      receiving, revoked, notified := true, false, 0;
    }

    method PushEvent(event: Event)
      modifies this
      ensures Value() == Pushed(old(Value()), event)
      ensures notified == old(notified) + 1 && revoked == old(revoked)
    {
      events := events + [event];
      notified := notified + 1;
    }

    method SetStatus(next: RunStatus)
      modifies this
      ensures Value() == old(Value()).(status := next)
      ensures notified == old(notified) + 1 && revoked == old(revoked)
    {
      status := next;
      notified := notified + 1;
    }

    method SetPending(next: Option<string>)
      modifies this
      ensures Value() == old(Value()).(pending := next)
      ensures notified == old(notified) && revoked == old(revoked)
    {
      pending := next;
    }

    /** Takes a continuation exactly when the run is paused, can be continued and is
      * not revoked, and only then wakes waiters. */
    method ContinueWith(how: Continuation) returns (taken: bool)
      modifies this
      ensures taken <==> Takes(old(Value()), old(revoked))
      ensures Value() == if old(revoked) then old(Value()) else Continued(old(Value()), how)
      ensures taken <==> !old(revoked) && old(status) == AwaitingContinue && old(receiving)
      ensures taken ==> continues == old(continues) + [how] && status == Running
      ensures !taken ==> continues == old(continues) && status == old(status)
      ensures notified == old(notified) + (if taken then 1 else 0) && revoked == old(revoked)
    {
      if revoked {
        return false;
      }
      if status != AwaitingContinue || !receiving {
        return false;
      }
      continues := continues + [how];
      status := Running;
      notified := notified + 1;
      return true;
    }

    /** The read inside `wait_from`, made while the event buffer is locked. */
    method ReadFrom(seen: nat) returns (read: Option<(seq<Event>, RunStatus)>)
      ensures read.Some? <==> News(Value(), seen)
      ensures read.Some? ==> read.value == (After(Value(), seen), status)
    {
      if |events| > seen || Terminal(status) {
        var from := if seen < |events| then seen else |events|;
        return Some((events[from..], status));
      }
      return None;
    }

    /** Searches the buffer from its end, as the status endpoint does. */
    method StopReasonOf() returns (reason: Option<StopReason>)
      ensures reason == LastReason(events)
    {
      var i := |events|;
      while i > 0
        invariant 0 <= i <= |events|
        invariant events[..|events|] == events && LastReason(events) == LastReason(events[..i])
      {
        i := i - 1;
        assert events[..i + 1][..i] == events[..i];
        if events[i].RunCompleted? {
          return Some(events[i].reason);
        }
      }
      return None;
    }
  }
}
