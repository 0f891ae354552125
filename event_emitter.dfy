/**
 * `EventEmitter`: one handler list per known event type, with add, remove,
 * remove-all, clear, count and trigger. Every operation runs as one atomic
 * step here (the Ruby class guards each with a Mutex).
 */
module Emitter {
  import opened Wrappers
  import opened RubyValues
  import opened ProviderEvents

  /** A handler: an opaque identity, and whether it responds to `call`. */
  datatype Handler = Handler(id: nat, callable: bool)

  /**
   * What a handler does when called with some details: return, raise a
   * StandardError (which `rescue => e` catches), or raise an exception outside
   * StandardError (SystemExit, Interrupt, ...), which a bare rescue lets through.
   */
  datatype HandlerOutcome = Returns | RaisesStandardError | RaisesException

  type Details = map<Value, Value>

  /** One `handler.call(event_details)`. */
  datatype HandlerCall = HandlerCall(handler: Handler, details: Details)

  const NotCallableMessage := "Handler must respond to call"

  /** `Array#delete(h)`: removes every occurrence of `h`, keeping the order of the rest. */
  function Delete(s: seq<Handler>, h: Handler): (r: seq<Handler>)
    ensures |r| <= |s|
    ensures forall x :: x in r <==> x in s && x != h
  {
    if s == [] then [] else (if s[0] == h then [] else [s[0]]) + Delete(s[1..], h)
  }

  lemma {:induction false} DeleteRemovesEveryOccurrence(s: seq<Handler>, h: Handler)
    ensures multiset(Delete(s, h)) == multiset(s)[h := 0]
    ensures h !in Delete(s, h)
  {
    if s != [] {
      DeleteRemovesEveryOccurrence(s[1..], h);
      assert s == [s[0]] + s[1..];
    }
  }

  lemma {:induction false} DeleteAbsentIsNoOp(s: seq<Handler>, h: Handler)
    requires h !in s
    ensures Delete(s, h) == s
  {
    if s != [] {
      DeleteAbsentIsNoOp(s[1..], h);
      assert s == [s[0]] + s[1..];
    }
  }

  /** Removing the same handler twice is the same as removing it once. */
  lemma DeleteIdempotent(s: seq<Handler>, h: Handler)
    ensures Delete(Delete(s, h), h) == Delete(s, h)
  {
    DeleteRemovesEveryOccurrence(s, h);
    DeleteAbsentIsNoOp(Delete(s, h), h);
  }

  class EventEmitter {
    var handlers: map<ProviderEvent, seq<Handler>>

    /** There is a list for each of the four known event types and for nothing else. */
    ghost predicate Valid()
      reads this
    {
      forall e :: e in handlers <==> ValidEvent(e)
    }

    constructor ()
      ensures Valid()
      ensures forall e :: e in handlers ==> handlers[e] == []
    {
      handlers := map e | e in AllEvents :: [];
    }

    /** `handler_count`: 0 for an unknown event type. */
    function HandlerCount(e: ProviderEvent): (n: nat)
      requires Valid()
      reads this
      ensures ValidEvent(e) ==> n == |handlers[e]|
      ensures !ValidEvent(e) ==> n == 0
    {
      if ValidEvent(e) then |handlers[e]| else 0
    }

    method AddHandler(e: ProviderEvent, h: Handler) returns (r: Outcome<Error>)
      requires Valid()
      modifies this
      ensures Valid()
      ensures !ValidEvent(e) ==> r == Fail(ArgumentError(InvalidEventTypeMessage(e)))
      ensures ValidEvent(e) && !h.callable ==> r == Fail(ArgumentError(NotCallableMessage))
      ensures r.Pass? <==> ValidEvent(e) && h.callable
      ensures r.Fail? ==> handlers == old(handlers)
      ensures r.Pass? ==> handlers == old(handlers)[e := old(handlers)[e] + [h]]
      ensures r.Pass? ==> HandlerCount(e) == old(HandlerCount(e)) + 1
    {
      if !ValidEvent(e) {
        return Fail(ArgumentError(InvalidEventTypeMessage(e)));
      }
      if !h.callable {
        return Fail(ArgumentError(NotCallableMessage));
      }
      handlers := handlers[e := handlers[e] + [h]];
      r := Pass;
    }

    /** `remove_handler`: a no-op for an unknown event type or an absent handler. */
    method RemoveHandler(e: ProviderEvent, h: Handler)
      requires Valid()
      modifies this
      ensures Valid()
      ensures ValidEvent(e) ==> handlers == old(handlers)[e := Delete(old(handlers)[e], h)]
      ensures !ValidEvent(e) ==> handlers == old(handlers)
      ensures h !in old(HandlersFor(e)) ==> handlers == old(handlers)
      ensures h !in HandlersFor(e)
    {
      if !ValidEvent(e) {
        return;
      }
      DeleteRemovesEveryOccurrence(handlers[e], h);
      if h !in handlers[e] {
        DeleteAbsentIsNoOp(handlers[e], h);
      }
      handlers := handlers[e := Delete(handlers[e], h)];
    }

    /** The list for `e`, empty for an unknown event type. */
    function HandlersFor(e: ProviderEvent): seq<Handler>
      reads this
    {
      if e in handlers then handlers[e] else []
    }

    method RemoveAllHandlers(e: ProviderEvent)
      requires Valid()
      modifies this
      ensures Valid()
      ensures ValidEvent(e) ==> handlers == old(handlers)[e := []]
      ensures !ValidEvent(e) ==> handlers == old(handlers)
    {
      if !ValidEvent(e) {
        return;
      }
      handlers := handlers[e := []];
    }

    method ClearAllHandlers()
      requires Valid()
      modifies this
      ensures Valid()
      ensures handlers.Keys == old(handlers).Keys
      ensures forall e :: e in handlers ==> handlers[e] == []
    {
      handlers := map e | e in handlers :: [];
    }

    /**
     * `trigger_event`: calls every handler of a snapshot of `e`'s list, in
     * registration order, with the same details. A StandardError from a
     * handler is rescued and the loop goes on; any other exception ends the
     * loop and propagates, reported as `escaped`. `outcome` says what each
     * handler does when called; the handlers do not touch the emitter.
     */
    method TriggerEvent(e: ProviderEvent, details: Details, outcome: (Handler, Details) -> HandlerOutcome)
      returns (calls: seq<HandlerCall>, escaped: Option<Handler>)
      requires Valid()
      ensures !ValidEvent(e) ==> calls == [] && escaped.None?
      ensures ValidEvent(e) ==> |calls| <= |handlers[e]|
      ensures ValidEvent(e) ==> forall i :: 0 <= i < |calls| ==> calls[i] == HandlerCall(handlers[e][i], details)
      ensures forall i :: 0 <= i < |calls| - 1 ==> outcome(calls[i].handler, details) != RaisesException
      ensures escaped.None? ==> |calls| == HandlerCount(e)
      ensures escaped.None? ==> forall c :: c in calls ==> outcome(c.handler, details) != RaisesException
      ensures escaped.Some? ==>
        calls != [] && escaped.value == calls[|calls| - 1].handler && outcome(escaped.value, details) == RaisesException
    {
      calls, escaped := [], None;
      if !ValidEvent(e) {
        return;
      }
      var snapshot := handlers[e];
      for i := 0 to |snapshot|
        invariant |calls| == i
        invariant forall j :: 0 <= j < i ==> calls[j] == HandlerCall(snapshot[j], details)
        invariant forall c :: c in calls ==> outcome(c.handler, details) != RaisesException
      {
        var h := snapshot[i];
        calls := calls + [HandlerCall(h, details)];
        if outcome(h, details) == RaisesException {
          escaped := Some(h);
          break;
        }
      }
    }
  }
}
