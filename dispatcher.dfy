/**
 * `BaseDispatcher`: the registry of one SSE emitter per user id, kept in
 * step with the connection and stream counters of `CustomHttp2Metrics`.
 * Emitters are abstract handles; the three callbacks an emitter can fire
 * (completion, timeout, error) are methods the environment calls, and the
 * outcome of each `send` is an input: the set of emitters whose send throws
 * an `IOException`.
 */
module Dispatcher {
  import opened Wrappers
  import opened Metrics
  import Prices

  /** `SSE_TIMEOUT`: an emitter times out after 300 seconds. */
  const SSE_TIMEOUT: int := 300_000

  /** An `SseEmitter`: its identity and its timeout in milliseconds. */
  datatype Emitter = Emitter(id: nat, timeoutMs: int)

  /** What happens to the registry: a subscription, or a completion, timeout or error callback for a user. */
  datatype Event = Subscribed(user: string) | Released(user: string)

  /** The user ids registered after `events`: a subscription adds its user, a callback removes its user. */
  function Registered(events: seq<Event>): set<string>
  {
    if events == [] then {}
    else
      var rest := Registered(events[..|events| - 1]);
      match events[|events| - 1]
      case Subscribed(u) => rest + {u}
      case Released(u) => rest - {u}
  }

  /** Subscriptions minus callbacks: what the connection counter adds up, before wrapping. */
  function OpenCount(events: seq<Event>): int
  {
    if events == [] then 0
    else OpenCount(events[..|events| - 1]) + (if events[|events| - 1].Subscribed? then 1 else -1)
  }

  /** The last event in `events` about user `u`, if any. */
  function LastAbout(events: seq<Event>, u: string): Option<Event>
  {
    if events == [] then None
    else if events[|events| - 1].user == u then Some(events[|events| - 1])
    else LastAbout(events[..|events| - 1], u)
  }

  /**
   * Removal goes by user id, not by emitter: a user is registered exactly
   * when the last event about that user is a subscription, whichever emitter
   * the callback came from.
   */
  lemma {:induction false} RegisteredIffLastSubscribed(events: seq<Event>, u: string)
    ensures u in Registered(events) <==> LastAbout(events, u) == Some(Subscribed(u))
  {
    if events != [] {
      RegisteredIffLastSubscribed(events[..|events| - 1], u);
    }
  }

  /**
   * A late callback from a replaced emitter removes the newer one, and the
   * connection count then exceeds the number of registered users.
   */
  lemma LateCallbackRemovesNewer(u: string)
    ensures var events := [Subscribed(u), Subscribed(u), Released(u)];
            Registered(events) == {} && OpenCount(events) == 1
  {
    OpenCountAppend([], Subscribed(u));
    OpenCountAppend([Subscribed(u)], Subscribed(u));
    OpenCountAppend([Subscribed(u), Subscribed(u)], Released(u));
    assert [Subscribed(u)] + [Subscribed(u)] + [Released(u)] == [Subscribed(u), Subscribed(u), Released(u)];
  }

  lemma OpenCountAppend(events: seq<Event>, e: Event)
    ensures OpenCount(events + [e]) == OpenCount(events) + (if e.Subscribed? then 1 else -1)
    ensures Registered(events + [e]) == if e.Subscribed? then Registered(events) + {e.user} else Registered(events) - {e.user}
  {
    assert (events + [e])[..|events|] == events;
  }

  /** The counter steps the events cause: an increment per subscription, a decrement per callback. */
  function Steps(events: seq<Event>): (r: seq<bool>)
    ensures |r| == |events|
  {
    if events == [] then [] else Steps(events[..|events| - 1]) + [events[|events| - 1].Subscribed?]
  }

  lemma StepsAppend(start: int, events: seq<Event>, e: Event)
    ensures Steps(events + [e]) == Steps(events) + [e.Subscribed?]
    ensures Counted(start, Steps(events + [e]))
            == if e.Subscribed? then Inc32(Counted(start, Steps(events))) else Dec32(Counted(start, Steps(events)))
  {
    assert (events + [e])[..|events|] == events;
    var steps := Steps(events) + [e.Subscribed?];
    assert steps[..|steps| - 1] == Steps(events);
  }

  lemma {:induction false} NetOfSteps(events: seq<Event>)
    ensures Net(Steps(events)) == OpenCount(events)
  {
    if events != [] {
      var prefix := events[..|events| - 1];
      NetOfSteps(prefix);
      var steps := Steps(events);
      assert steps[..|steps| - 1] == Steps(prefix);
    }
  }

  /**
   * The connection counter equals the number of emitters created minus the
   * number of callbacks fired (wrapped to 32 bits), whatever the number of
   * users still registered.
   */
  lemma ConnectionsAreOpenCount(start: int, events: seq<Event>)
    requires IsInt32(start)
    ensures Counted(start, Steps(events)) == Wrap32(start + OpenCount(events))
  {
    CountedIsWrappedNet(start, Steps(events));
    NetOfSteps(events);
  }

  /** The users among `users` whose current emitter is one whose send fails. */
  function FailedAmong(emitters: map<string, Emitter>, failing: set<Emitter>, users: set<string>): (r: set<string>)
    ensures r <= users
  {
    set u | u in users && u in emitters && emitters[u] in failing
  }

  /** The users whose current emitter is among those whose send fails. */
  function FailedUsers(emitters: map<string, Emitter>, failing: set<Emitter>): set<string>
  {
    FailedAmong(emitters, failing, emitters.Keys)
  }

  /** The emitters of the given users. */
  function EmittersOf(emitters: map<string, Emitter>, users: set<string>): set<Emitter>
  {
    set u | u in users && u in emitters :: emitters[u]
  }

  /** How one more send changes the users done, the failed ones among them and their emitters. */
  lemma SendBookkeeping(emitters: map<string, Emitter>, failing: set<Emitter>, remaining: set<string>, u: string)
    requires remaining <= emitters.Keys && u in remaining
    ensures var done := emitters.Keys - remaining;
            var doneNow := emitters.Keys - (remaining - {u});
            var failed := FailedAmong(emitters, failing, done);
            var failedNow := FailedAmong(emitters, failing, doneNow);
            && doneNow == done + {u} && |doneNow| == |done| + 1
            && failedNow == (if emitters[u] in failing then failed + {u} else failed)
            && |failedNow| == (if emitters[u] in failing then |failed| + 1 else |failed|)
            && EmittersOf(emitters, failedNow)
               == (if emitters[u] in failing then EmittersOf(emitters, failed) + {emitters[u]} else EmittersOf(emitters, failed))
  {
    var done := emitters.Keys - remaining;
    assert emitters.Keys - (remaining - {u}) == done + {u};
    var failed := FailedAmong(emitters, failing, done);
    assert u !in failed;
  }

  lemma UnionAssoc<T>(a: set<T>, b: set<T>, c: set<T>)
    ensures a + b + c == a + (b + c)
  {
  }

  class BaseDispatcher {
    const metrics: CustomHttp2Metrics
    var userEmitters: map<string, Emitter>
    /** The emitters `completeWithError` has been called on. */
    var completedWithError: set<Emitter>
    var nextId: nat
    /** Every subscription and callback so far, in order. */
    ghost var events: seq<Event>
    /** The connection counter when this dispatcher was built. */
    ghost const connectionsAtStart: int

    ghost predicate Valid()
      reads this, metrics
    {
      && metrics.Valid()
      && IsInt32(connectionsAtStart)
      && userEmitters.Keys == Registered(events)
      && metrics.activeConnections == Counted(connectionsAtStart, Steps(events))
      && (forall u :: u in userEmitters ==> userEmitters[u].id < nextId)
    }

    constructor (metrics: CustomHttp2Metrics)
      requires metrics.Valid()
      ensures Valid()
      ensures this.metrics == metrics && userEmitters == map[] && completedWithError == {} && events == []
    {
      this.metrics := metrics;
      userEmitters := map[];
      completedWithError := {};
      nextId := 0;
      events := [];
      connectionsAtStart := metrics.activeConnections;
    }

    /**
     * `createEmitter`: counts one more connection and registers a new
     * emitter under `userId`, replacing the one the user had.
     */
    method CreateEmitter(userId: string) returns (emitter: Emitter)
      requires Valid()
      modifies this, metrics
      ensures Valid()
      ensures emitter == Emitter(old(nextId), SSE_TIMEOUT)
      ensures forall u :: u in old(userEmitters) ==> old(userEmitters)[u] != emitter
      ensures userEmitters == old(userEmitters)[userId := emitter]
      ensures metrics.activeConnections == Inc32(old(metrics.activeConnections))
      ensures metrics.activeStreams == old(metrics.activeStreams)
      ensures completedWithError == old(completedWithError)
      ensures events == old(events) + [Subscribed(userId)]
    {
      metrics.IncrementConnections();
      emitter := Emitter(nextId, SSE_TIMEOUT);
      nextId := nextId + 1;
      userEmitters := userEmitters[userId := emitter];
      OpenCountAppend(events, Subscribed(userId));
      StepsAppend(connectionsAtStart, events, Subscribed(userId));
      events := events + [Subscribed(userId)];
    }

    /** What the three callbacks share: drop the user's entry and count one connection less. */
    method Release(userId: string)
      requires Valid()
      modifies this, metrics
      ensures Valid()
      ensures userEmitters == old(userEmitters) - {userId}
      ensures metrics.activeConnections == Dec32(old(metrics.activeConnections))
      ensures metrics.activeStreams == old(metrics.activeStreams)
      ensures completedWithError == old(completedWithError) && nextId == old(nextId)
      ensures events == old(events) + [Released(userId)]
    {
      userEmitters := userEmitters - {userId};
      metrics.DecrementConnections();
      OpenCountAppend(events, Released(userId));
      StepsAppend(connectionsAtStart, events, Released(userId));
      events := events + [Released(userId)];
    }

    method HandleEmitterCompletion(userId: string)
      requires Valid()
      modifies this, metrics
      ensures Valid()
      ensures userEmitters == old(userEmitters) - {userId}
      ensures metrics.activeConnections == Dec32(old(metrics.activeConnections))
      ensures metrics.activeStreams == old(metrics.activeStreams)
      ensures completedWithError == old(completedWithError) && nextId == old(nextId)
      ensures events == old(events) + [Released(userId)]
    {
      Release(userId);
    }

    method HandleEmitterTimeout(userId: string)
      requires Valid()
      modifies this, metrics
      ensures Valid()
      ensures userEmitters == old(userEmitters) - {userId}
      ensures metrics.activeConnections == Dec32(old(metrics.activeConnections))
      ensures metrics.activeStreams == old(metrics.activeStreams)
      ensures completedWithError == old(completedWithError) && nextId == old(nextId)
      ensures events == old(events) + [Released(userId)]
    {
      Release(userId);
    }

    /** The error itself is only logged. */
    method HandleEmitterError(userId: string, cause: string)
      requires Valid()
      modifies this, metrics
      ensures Valid()
      ensures userEmitters == old(userEmitters) - {userId}
      ensures metrics.activeConnections == Dec32(old(metrics.activeConnections))
      ensures metrics.activeStreams == old(metrics.activeStreams)
      ensures completedWithError == old(completedWithError) && nextId == old(nextId)
      ensures events == old(events) + [Released(userId)]
    {
      Release(userId);
    }

    /**
     * The body of the `forEach` in `sendPriceUpdate` for one emitter: count
     * a stream, send, and on an `IOException` uncount it and complete the
     * emitter with the error.
     */
    method SendTo(emitter: Emitter, failing: set<Emitter>) returns (failed: bool)
      requires metrics.Valid()
      modifies metrics, this`completedWithError
      ensures metrics.Valid()
      ensures failed == (emitter in failing)
      ensures metrics.activeStreams == if failed then Dec32(Inc32(old(metrics.activeStreams))) else Inc32(old(metrics.activeStreams))
      ensures metrics.activeConnections == old(metrics.activeConnections)
      ensures completedWithError == if failed then old(completedWithError) + {emitter} else old(completedWithError)
    {
      metrics.IncrementStreams();
      failed := emitter in failing;
      if failed {
        metrics.DecrementStreams();
        completedWithError := completedWithError + {emitter};
      }
    }

    /**
     * `sendPriceUpdate`: one send per registered user, each counted as a
     * stream; a send that fails is uncounted again and its emitter is
     * completed with the error, and the other users are still sent to. The
     * registry itself does not change.
     */
    method SendPriceUpdate(price: Prices.Price, failing: set<Emitter>) returns (ghost steps: seq<bool>)
      requires Valid()
      modifies metrics, this`completedWithError
      ensures Valid()
      ensures metrics.activeStreams == Counted(old(metrics.activeStreams), steps)
      ensures Net(steps) == |userEmitters.Keys| - |FailedUsers(userEmitters, failing)|
      ensures metrics.activeStreams
              == Wrap32(old(metrics.activeStreams) + |userEmitters.Keys| - |FailedUsers(userEmitters, failing)|)
      ensures metrics.activeConnections == old(metrics.activeConnections)
      ensures completedWithError == old(completedWithError) + EmittersOf(userEmitters, FailedUsers(userEmitters, failing))
    {
      steps := SendToEach(userEmitters, failing);
      CountedIsWrappedNet(old(metrics.activeStreams), steps);
    }

    /** The `forEach` of `sendPriceUpdate` over a snapshot of the registry, in no particular order. */
    method SendToEach(emitters: map<string, Emitter>, failing: set<Emitter>) returns (ghost steps: seq<bool>)
      requires metrics.Valid()
      modifies metrics, this`completedWithError
      ensures metrics.Valid()
      ensures metrics.activeStreams == Counted(old(metrics.activeStreams), steps)
      ensures Net(steps) == |emitters.Keys| - |FailedUsers(emitters, failing)|
      ensures metrics.activeConnections == old(metrics.activeConnections)
      ensures completedWithError == old(completedWithError) + EmittersOf(emitters, FailedUsers(emitters, failing))
    {
      var remaining := emitters.Keys;
      steps := [];
      ghost var fails: set<string> := {};
      while remaining != {}
        invariant metrics.Valid()
        invariant remaining <= emitters.Keys
        invariant metrics.activeStreams == Counted(old(metrics.activeStreams), steps)
        invariant Net(steps) == |emitters.Keys - remaining| - |FailedAmong(emitters, failing, emitters.Keys - remaining)|
        invariant metrics.activeConnections == old(metrics.activeConnections)
        invariant fails == FailedAmong(emitters, failing, emitters.Keys - remaining)
        invariant completedWithError == old(completedWithError) + EmittersOf(emitters, fails)
        decreases remaining
      {
        var userId :| userId in remaining;
        SendBookkeeping(emitters, failing, remaining, userId);
        var failed := SendTo(emitters[userId], failing);
        CountedAppend(old(metrics.activeStreams), steps, true);
        steps := steps + [true];
        if failed {
          CountedAppend(old(metrics.activeStreams), steps, false);
          steps := steps + [false];
          UnionAssoc(old(completedWithError), EmittersOf(emitters, fails), {emitters[userId]});
          fails := fails + {userId};
        }
        remaining := remaining - {userId};
      }
      assert emitters.Keys - remaining == emitters.Keys;
    }
  }
}
