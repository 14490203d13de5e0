/**
 * The `ring-config` node: a one-cell credential store (the node-context slot
 * `token`), the client it builds from it, the liveness probe, the reaction to
 * refresh-token rotation and the close handler.
 *
 * The client library is not modelled: constructing the client, the probe and
 * the rotation events are inputs, and every observable act of the node is
 * appended to `effects`, so that the order of acts is part of the state.
 */
module Session {
  import opened RingTypes

  datatype Effect =
    | StoreToken(token: Option<string>)   // context().set('token', ...)
    | CreateClient(refreshToken: string)  // new RingApi({ refreshToken }), which may throw
    | SendProbe                           // getProfile()
    | SubscribeRotation                   // onRefreshTokenUpdated.subscribe
    | AssignApi                           // this.api = tmpApi
    | EmitTokenFetched                    // emit('ring-config-token-fetched')
    | UnsubscribeRotation
    | Disconnect                          // this.api.disconnect()
    | CloseFault                          // this.api is undefined: the close handler throws
    | Logged(log: Log)

  /**
   * The token the node starts with: the stored one, replaced by the initial
   * credential only when the stored one is falsy and the initial one truthy.
   */
  function SeedToken(stored: Option<string>, initial: Option<string>): (t: Option<string>)
    ensures TruthyText(stored) ==> t == stored
    ensures !TruthyText(stored) && TruthyText(initial) ==> t == initial
    ensures !TruthyText(stored) && !TruthyText(initial) ==> t == stored
    ensures TruthyText(t) <==> TruthyText(stored) || TruthyText(initial)
  {
    if !TruthyText(stored) && TruthyText(initial) then initial else stored
  }

  /** Seeding twice with the same initial credential changes nothing more. */
  lemma SeedTokenIdempotent(stored: Option<string>, initial: Option<string>)
    ensures SeedToken(SeedToken(stored, initial), initial) == SeedToken(stored, initial)
  {
  }

  /** The effects of starting the node, in order (lines 28-61 of the config node). */
  function StartEffects(stored: Option<string>, initial: Option<string>, constructs: bool): (e: seq<Effect>)
    ensures !TruthyText(SeedToken(stored, initial)) ==> e == [Logged(NoToken)]
    ensures TruthyText(SeedToken(stored, initial)) ==>
              CreateClient(SeedToken(stored, initial).value) in e && Logged(NoToken) !in e
    ensures TruthyText(SeedToken(stored, initial)) && constructs ==>
              SendProbe in e && SubscribeRotation in e && Logged(RemoteError) !in e
    ensures !constructs ==> SendProbe !in e && SubscribeRotation !in e
    ensures AssignApi !in e && EmitTokenFetched !in e
    ensures TruthyText(SeedToken(stored, initial)) && !constructs ==> e[|e| - 1] == Logged(RemoteError)
    ensures !TruthyText(stored) && TruthyText(initial) ==> e[0] == StoreToken(initial)
    ensures TruthyText(SeedToken(stored, initial)) ==>
              |e| == (if TruthyText(stored) then 0 else 1) + (if constructs then 3 else 2)
    ensures TruthyText(SeedToken(stored, initial)) && !constructs ==>
              e[|e| - 2] == CreateClient(SeedToken(stored, initial).value)
    ensures TruthyText(SeedToken(stored, initial)) && constructs ==>
              |e| >= 3 && e[|e| - 3] == CreateClient(SeedToken(stored, initial).value)
              && e[|e| - 2] == SendProbe && e[|e| - 1] == SubscribeRotation
  {
    var t := SeedToken(stored, initial);
    var seeded := if !TruthyText(stored) && TruthyText(initial) then [StoreToken(initial)] else [];
    if !TruthyText(t) then
      [Logged(NoToken)]
    else if constructs then
      seeded + [CreateClient(t.value), SendProbe, SubscribeRotation]
    else
      seeded + [CreateClient(t.value), Logged(RemoteError)]
  }

  class ConfigNode {
    /** The node-context slot `token`. */
    var token: Option<string>
    /** The refresh token the client was constructed with, when `new RingApi` returned. */
    var client: Option<string>
    /** `this.api` has been assigned. */
    var api: bool
    /** The rotation subscription is live. */
    var rotationLive: bool
    /** A close handler was registered (only when the client was constructed). */
    var closeRegistered: bool
    /** The probe was sent and has not settled yet. */
    var probePending: bool
    var closed: bool
    /** Every observable act of the node so far, oldest first. */
    var effects: seq<Effect>

    ghost predicate Valid()
      reads this
    {
      && (rotationLive ==> client.Some? && closeRegistered && !closed)
      && (api ==> client.Some?)
      && (closeRegistered ==> client.Some?)
      && (closed ==> closeRegistered && !rotationLive)
      && (probePending ==> closeRegistered)
    }

    /**
     * Starting the node. `stored` is what the context slot holds, `initial`
     * the configured credential, `constructs` whether `new RingApi` returns
     * rather than throws.
     */
    constructor (stored: Option<string>, initial: Option<string>, constructs: bool)
      ensures Valid()
      ensures token == SeedToken(stored, initial)
      ensures effects == StartEffects(stored, initial, constructs)
      ensures client.Some? <==> TruthyText(SeedToken(stored, initial)) && constructs
      ensures client.Some? ==> client.value == SeedToken(stored, initial).value
      ensures rotationLive <==> client.Some?
      ensures closeRegistered == rotationLive && probePending == rotationLive
      ensures !api && !closed
    {
      var t := stored;
      var e: seq<Effect> := [];
      if !TruthyText(t) && TruthyText(initial) {
        t := initial;
        e := e + [StoreToken(initial)];
      }
      if TruthyText(t) {
        e := e + [CreateClient(t.value)];
        if constructs {
          e := e + [SendProbe, SubscribeRotation];
        } else {
          e := e + [Logged(RemoteError)];
        }
      } else {
        e := e + [Logged(NoToken)];
      }
      token := t;
      client := if TruthyText(t) && constructs then Some(t.value) else None;
      api := false;
      rotationLive := TruthyText(t) && constructs;
      closeRegistered := rotationLive;
      probePending := rotationLive;
      closed := false;
      effects := e;
    }

    /**
     * The probe `getProfile()` settles, at any time after the start (also
     * after a rotation or a close): a rejection logs and clears the stored
     * token; the client, `this.api` and the subscription stay as they are.
     */
    method ProbeSettled(outcome: Call<()>)
      requires Valid() && probePending
      modifies this
      ensures Valid() && !probePending
      ensures outcome.Rejected? ==> token == None && effects == old(effects) + [Logged(RemoteError), StoreToken(None)]
      ensures outcome.Resolved? ==> token == old(token) && effects == old(effects)
      ensures client == old(client) && api == old(api) && rotationLive == old(rotationLive)
      ensures closeRegistered == old(closeRegistered) && closed == old(closed)
    {
      probePending := false;
      if outcome.Rejected? {
        effects := effects + [Logged(RemoteError)];
        token := None;
        effects := effects + [StoreToken(None)];
      }
    }

    /**
     * A rotation event: the new token is stored first, then `this.api` is
     * assigned, then the token-fetched signal is emitted.
     */
    method RotateToken(newRefreshToken: string)
      requires Valid() && rotationLive
      modifies this
      ensures Valid()
      ensures token == Some(newRefreshToken) && api
      ensures effects == old(effects) + [StoreToken(Some(newRefreshToken)), AssignApi, EmitTokenFetched]
      ensures client == old(client) && rotationLive == old(rotationLive) && probePending == old(probePending)
      ensures closeRegistered == old(closeRegistered) && closed == old(closed)
    {
      token := Some(newRefreshToken);
      effects := effects + [StoreToken(token)];
      api := true;
      effects := effects + [AssignApi];
      effects := effects + [EmitTokenFetched];
    }

    /**
     * Closing the node runs the close handler, if one was registered: it
     * unsubscribes from rotation and then disconnects `this.api`, which throws
     * when no rotation ever assigned it.
     */
    method Close()
      requires Valid() && !closed
      modifies this
      ensures Valid()
      ensures old(closeRegistered) ==> closed && !rotationLive
      ensures old(closeRegistered) && old(api) ==> effects == old(effects) + [UnsubscribeRotation, Disconnect]
      ensures old(closeRegistered) && !old(api) ==> effects == old(effects) + [UnsubscribeRotation, CloseFault]
      ensures !old(closeRegistered) ==> effects == old(effects) && closed == old(closed) && rotationLive == old(rotationLive)
      ensures token == old(token) && client == old(client) && api == old(api)
      ensures closeRegistered == old(closeRegistered) && probePending == old(probePending)
    {
      if closeRegistered {
        rotationLive := false;
        effects := effects + [UnsubscribeRotation];
        if api {
          effects := effects + [Disconnect];
        } else {
          effects := effects + [CloseFault];
        }
        closed := true;
      }
    }
  }

  /**
   * Start with a credential whose client builds, then the first rotation:
   * the token-fetched signal comes after `this.api` is set, so a listener
   * reacting to it finds the client.
   */
  method FirstRotation(stored: Option<string>, initial: Option<string>, newRefreshToken: string)
    returns (effects: seq<Effect>, hasApi: bool, token: Option<string>)
    requires TruthyText(SeedToken(stored, initial))
    ensures hasApi && token == Some(newRefreshToken)
    ensures effects == StartEffects(stored, initial, true) + [StoreToken(Some(newRefreshToken)), AssignApi, EmitTokenFetched]
  {
    var node := new ConfigNode(stored, initial, true);
    node.RotateToken(newRefreshToken);
    effects, hasApi, token := node.effects, node.api, node.token;
  }
}
