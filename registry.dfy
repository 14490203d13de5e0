/**
 * The close-handler bookkeeping of a listener node: every `subscribe` is
 * followed by `this.on('close', () => subscription.unsubscribe())`, so the
 * node holds one close handler per subscription, and closing the node runs
 * them all in registration order.
 */
module Registry {
  import opened Router

  /** The handles from `lo` up to, not including, `hi`. */
  function Range(lo: nat, hi: nat): (r: set<nat>)
    ensures forall h :: h in r <==> lo <= h < hi
    decreases hi
  {
    if hi <= lo then {} else Range(lo, hi - 1) + {hi - 1}
  }

  class CloseRegistry {
    /** streams[h] is the source subscribed under handle h; handles are never reused. */
    var streams: seq<Source>
    /** The close handlers, in registration order; each unsubscribes one handle. */
    var handlers: seq<nat>
    /** The handles still subscribed. */
    var live: set<nat>

    ghost predicate Valid()
      reads this
    {
      && |handlers| == |streams|
      && (forall i :: 0 <= i < |handlers| ==> handlers[i] == i)
      && (forall h :: h in live ==> h < |streams|)
    }

    /** The sources of the subscriptions still live. */
    function LiveSources(): set<Source>
      reads this
      requires Valid()
    {
      set h | h in live :: streams[h]
    }

    constructor ()
      ensures Valid() && streams == [] && handlers == [] && live == {}
    {
      streams, handlers, live := [], [], {};
    }

    /** `let subscription = s.subscribe(...); this.on('close', ...)`: a fresh handle and its handler. */
    method Subscribe(s: Source) returns (h: nat)
      requires Valid()
      modifies this
      ensures Valid()
      ensures h == |old(streams)| && h !in old(live)
      ensures streams == old(streams) + [s] && handlers == old(handlers) + [h]
      ensures live == old(live) + {h}
    {
      h := |streams|;
      streams := streams + [s];
      handlers := handlers + [h];
      live := live + {h};
    }

    /** `subscription.unsubscribe()`: a second call on the same handle changes nothing. */
    method Unsubscribe(h: nat)
      requires Valid()
      modifies this`live
      ensures Valid()
      ensures live == old(live) - {h}
    {
      live := live - {h};
    }

    /** The `forEach` over the locations (or cameras) of a listener: one subscription per source, in order. */
    method SubscribeAll(sources: seq<Source>)
      requires Valid()
      modifies this
      ensures Valid()
      ensures streams == old(streams) + sources
      ensures handlers == old(handlers) + seq(|sources|, i requires 0 <= i < |sources| => |old(streams)| + i)
      ensures live == old(live) + Range(|old(streams)|, |old(streams)| + |sources|)
    {
      var k := 0;
      while k < |sources|
        invariant 0 <= k <= |sources|
        invariant Valid()
        invariant streams == old(streams) + sources[..k]
        invariant handlers == old(handlers) + seq(k, i requires 0 <= i < k => |old(streams)| + i)
        invariant live == old(live) + Range(|old(streams)|, |old(streams)| + k)
      {
        var h := Subscribe(sources[k]);
        assert sources[..k + 1] == sources[..k] + [sources[k]];
        assert seq(k + 1, i requires 0 <= i < k + 1 => |old(streams)| + i)
            == seq(k, i requires 0 <= i < k => |old(streams)| + i) + [h];
        assert Range(|old(streams)|, h + 1) == Range(|old(streams)|, h) + {h};
        k := k + 1;
      }
      assert sources[..k] == sources;
    }

    /** Closing the node runs every close handler; afterwards no subscription is live. */
    method Close()
      requires Valid()
      modifies this`live
      ensures Valid()
      ensures live == {}
    {
      var k := 0;
      while k < |handlers|
        invariant 0 <= k <= |handlers|
        invariant Valid()
        invariant live == old(live) - Range(0, k)
      {
        Unsubscribe(handlers[k]);
        assert Range(0, k + 1) == Range(0, k) + {k};
        k := k + 1;
      }
    }
  }

  /**
   * A listener attaching after token-fetched and then closing: every stream
   * it subscribed is live until the close, and none after.
   */
  method AttachThenClose(plan: Plan) returns (liveBefore: set<Source>, liveAfter: set<Source>)
    ensures liveBefore == set s | s in plan.streams
    ensures liveAfter == {}
  {
    var r := new CloseRegistry();
    r.SubscribeAll(plan.streams);
    liveBefore := r.LiveSources();
    assert forall s :: s in plan.streams ==> s in liveBefore by {
      forall s | s in plan.streams ensures s in liveBefore {
        var k :| 0 <= k < |plan.streams| && plan.streams[k] == s;
        assert k in r.live;
      }
    }
    r.Close();
    liveAfter := r.LiveSources();
  }
}
