/** DirectShardCallbackTemplate: runs a callback with the current thread's shard
    context set to the given keys, and clears that context on every way out. */
module DirectShardCallbackTemplate {
  import opened ShardingContext
  import opened CallbackOutcome

  /** The context the callback runs under, as built by the statements before
      `doInShard`: the sharding key is written unconditionally, the super key
      only when one is given; otherwise that slot keeps what it held before. */
  function During<K>(prior: Context<K>, shardingKey: Option<K>, superShardingKey: Option<K>): Context<K> {
    var keyed := Context(shardingKey, prior.superKey);
    if superShardingKey.Some? then Context(keyed.shardKey, superShardingKey) else keyed
  }

  /** Everything one `execute` call does to the thread: the context its
      callback ran under, what it returned or threw, and the context it left. */
  datatype Effect<K, T> = Effect(during: Context<K>, result: Result<T>, after: Context<K>)

  /** `execute` as a function of the thread's context before the call, the two
      keys and the callback's behaviour for this one invocation (`respond` gives
      its outcome under the context it sees). */
  function ExecuteSpec<K, T>(prior: Context<K>, shardingKey: Option<K>, superShardingKey: Option<K>,
                             respond: Context<K> -> Outcome<T>): (e: Effect<K, T>)
    // while the callback runs, the sharding key is the argument
    ensures e.during.shardKey == shardingKey
    // the super key slot is written only when a super key is given
    ensures superShardingKey.Some? ==> e.during.superKey == superShardingKey
    ensures superShardingKey.None? ==> e.during.superKey == prior.superKey
    // the result is what the callback did under that context, sorted by Classify
    ensures e.result == Classify(respond(e.during))
    // the finally clause: empty on every exit path, the prior context is not restored
    ensures e.after == Empty()
  {
    var during := During(prior, shardingKey, superShardingKey);
    Effect(during, Classify(respond(during)), Empty())
  }

  /** A DirectShardCallback. A Java callback is an object: it may keep state
      of its own (a counter, a cursor) and its data access may be routed to
      whichever shard the context names. So `doInShard` is a step from the
      callback's current state and the context it reads to its next state and
      its outcome; two invocations may end differently. `seen` records the
      context of every invocation. */
  class Callback<S, K, T> {
    var state: S
    const step: (S, Context<K>) -> (S, Outcome<T>)
    ghost var seen: seq<Context<K>>

    constructor (init: S, step: (S, Context<K>) -> (S, Outcome<T>))
      ensures state == init && this.step == step && seen == []
    {
      state := init;
      this.step := step;
      seen := [];
    }

    /** What the next invocation would do under a given context, from the
        callback's current state. */
    function Behaviour(): Context<K> -> Outcome<T>
      reads this
    {
      var s := state;
      (c: Context<K>) => step(s, c).1
    }

    /** doInShard: runs with whatever the thread's context holds now. */
    method DoInShard(ctx: ShardContext<K>) returns (o: Outcome<T>)
      modifies this
      ensures (state, o) == step(old(state), ctx.Current())
      ensures seen == old(seen) + [ctx.Current()]
    {
      var next := step(state, ctx.Current());
      state, o := next.0, next.1;
      seen := seen + [ctx.Current()];
    }
  }

  /** execute(shardingKey, superShardingKey, action). The callback is invoked
      exactly once, under the context ExecuteSpec describes; the result is its
      value or its throwable as Classify sorts it; the context is cleared
      afterwards whatever happened. */
  method ExecuteWithSuperKey<S, K, T>(ctx: ShardContext<K>, shardingKey: Option<K>, superShardingKey: Option<K>,
                                      action: Callback<S, K, T>) returns (r: Result<T>)
    modifies ctx, action
    ensures var e := ExecuteSpec(old(ctx.Current()), shardingKey, superShardingKey, old(action.Behaviour()));
      && action.seen == old(action.seen) + [e.during]
      && action.state == action.step(old(action.state), e.during).0
      && r == e.result
      && ctx.Current() == e.after
    ensures ctx.Current().IsEmpty()
  {
    ghost var prior := ctx.Current();
    // try {
    ctx.SetShardingKey(shardingKey);
    if superShardingKey.Some? {
      ctx.SetSuperShardingKey(superShardingKey.value);
    }
    assert ctx.Current() == During(prior, shardingKey, superShardingKey);
    var outcome := action.DoInShard(ctx);
    // } catch (RuntimeException | Error ex) { throw ex; } catch (Throwable ex) { throw new Undeclared... }
    r := Classify(outcome);
    // finally
    ctx.Clear();
  }

  /** execute(shardingKey, action): the three-argument form with a null super key. */
  method Execute<S, K, T>(ctx: ShardContext<K>, shardingKey: Option<K>, action: Callback<S, K, T>) returns (r: Result<T>)
    modifies ctx, action
    ensures var e := ExecuteSpec(old(ctx.Current()), shardingKey, None, old(action.Behaviour()));
      && action.seen == old(action.seen) + [e.during]
      && action.state == action.step(old(action.state), e.during).0
      && r == e.result
      && ctx.Current() == e.after
    ensures ctx.Current().IsEmpty()
  {
    r := ExecuteWithSuperKey(ctx, shardingKey, None, action);
  }

  /** A client: a callback that counts its invocations and returns the count
      ends differently on two `execute` calls with the same key, and the thread's
      context is empty after each. */
  method CountingCallbackHarness<K>(key: K) {
    var ctx := new ShardContext<K>();
    var counter := new Callback<nat, K, nat>(0, (n: nat, c: Context<K>) => (n + 1, Value(n + 1)));
    var r1 := Execute(ctx, Some(key), counter);
    assert ctx.Current().IsEmpty();
    var r2 := Execute(ctx, Some(key), counter);
    assert r1 == Returned(1) && r2 == Returned(2);
    assert counter.seen == [Context(Some(key), None), Context(Some(key), None)];
  }

  /** One `execute` call as a value: its two keys and its callback's behaviour. */
  datatype Call<!K, T> = Call(shardingKey: Option<K>, superShardingKey: Option<K>, respond: Context<K> -> Outcome<T>)

  /** The effects of several `execute` calls made one after another on the same
      thread, starting from the context `prior`: each call starts from the
      context the previous one left. */
  ghost function Session<K, T>(prior: Context<K>, calls: seq<Call<K, T>>): (effects: seq<Effect<K, T>>)
    ensures |effects| == |calls|
    // every call of the run leaves the thread's context empty
    ensures forall i :: 0 <= i < |calls| ==> effects[i].after == Empty()
    decreases |calls|
  {
    if calls == [] then []
    else
      var e := ExecuteSpec(prior, calls[0].shardingKey, calls[0].superShardingKey, calls[0].respond);
      [e] + Session(e.after, calls[1..])
  }

  /** On a thread whose context is empty, every call of a session runs its
      callback under exactly its own two keys. */
  lemma {:induction false} SessionFromEmpty<K, T>(calls: seq<Call<K, T>>)
    ensures forall i :: 0 <= i < |calls| ==>
      Session(Empty(), calls)[i].during == Context(calls[i].shardingKey, calls[i].superShardingKey)
  {
    if calls != [] {
      var rest := calls[1..];
      SessionFromEmpty(rest);
      var e := ExecuteSpec(Empty(), calls[0].shardingKey, calls[0].superShardingKey, calls[0].respond);
      assert Session(Empty(), calls) == [e] + Session(Empty(), rest);
      forall i | 0 < i < |calls|
        ensures Session(Empty(), calls)[i].during == Context(calls[i].shardingKey, calls[i].superShardingKey)
      {
        assert calls[i] == rest[i - 1];
      }
    }
  }

  /** ExecuteSpec's result clause at every index of a run: each call returns
      or throws what its own callback did under its context, sorted by Classify. */
  lemma {:induction false} SessionEachCall<K, T>(prior: Context<K>, calls: seq<Call<K, T>>)
    ensures forall i :: 0 <= i < |calls| ==>
      Session(prior, calls)[i].result == Classify(calls[i].respond(Session(prior, calls)[i].during))
    decreases |calls|
  {
    if calls != [] {
      var rest := calls[1..];
      var e := ExecuteSpec(prior, calls[0].shardingKey, calls[0].superShardingKey, calls[0].respond);
      SessionEachCall(e.after, rest);
      assert Session(prior, calls) == [e] + Session(e.after, rest);
      forall i | 0 < i < |calls|
        ensures Session(prior, calls)[i].result == Classify(calls[i].respond(Session(prior, calls)[i].during))
      {
        assert calls[i] == rest[i - 1];
      }
    }
  }

  /** Consecutive calls on one thread do not leak context into each other:
      whatever the thread held before, only the first callback can see a stale
      super key; every later callback sees exactly its own keys. */
  lemma {:induction false} SessionNoStaleContext<K, T>(prior: Context<K>, calls: seq<Call<K, T>>)
    ensures |calls| > 0 ==>
      Session(prior, calls)[0].during == During(prior, calls[0].shardingKey, calls[0].superShardingKey)
    ensures forall i :: 0 < i < |calls| ==>
      Session(prior, calls)[i].during == Context(calls[i].shardingKey, calls[i].superShardingKey)
  {
    if calls != [] {
      var rest := calls[1..];
      SessionFromEmpty(rest);
      var e := ExecuteSpec(prior, calls[0].shardingKey, calls[0].superShardingKey, calls[0].respond);
      assert Session(prior, calls) == [e] + Session(Empty(), rest);
      forall i | 0 < i < |calls|
        ensures Session(prior, calls)[i].during == Context(calls[i].shardingKey, calls[i].superShardingKey)
      {
        assert calls[i] == rest[i - 1];
      }
    }
  }
}
