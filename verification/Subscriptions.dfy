/**
 * The upstream feed's subscriptions (apps/server/src/cryptoattack/subscriptions.ts) and the
 * subscribe protocol of one endpoint (apps/server/src/cryptoattack/client.ts). Every socket event
 * and timer tick is one step; times and log lines are left out.
 */
module Subscriptions {
  import opened Wrappers

  type Payload = map<string, string>

  datatype Config = Config(
    enableDelistings: bool,
    enableAnnouncementDelistingFallback: bool,
    subscribeExtras: map<string, Payload>)

  datatype Subscription = Subscription(chapter: string, category: string, payload: Payload)

  // ---- the subscription list ----------------------------------------------------------------

  function Key(chapter: string, category: string): string {
    chapter + "/" + category
  }

  function SubscriptionKey(s: Subscription): string {
    Key(s.chapter, s.category)
  }

  function CreateSubscription(c: Config, chapter: string, category: string): Subscription {
    var key := Key(chapter, category);
    Subscription(chapter, category, if key in c.subscribeExtras then c.subscribeExtras[key] else map[])
  }

  function MainSubscriptions(c: Config): seq<Subscription> {
    [
      CreateSubscription(c, "cex_alerts", "all_derivatives_top"),
      CreateSubscription(c, "cex_alerts", "all_derivatives_per"),
      CreateSubscription(c, "cex_alerts", "all_spot_top"),
      CreateSubscription(c, "cex_alerts", "all_spot_per"),
      CreateSubscription(c, "cex_alerts", "flows_alert"),
      CreateSubscription(c, "cex_alerts", "cex_track"),
      CreateSubscription(c, "market_data", "top_oi"),
      CreateSubscription(c, "market_data", "top_funding"),
      CreateSubscription(c, "market_data", "etf_crypto"),
      CreateSubscription(c, "onchain", "24_all_flows"),
      CreateSubscription(c, "onchain", "1_all_flows"),
      CreateSubscription(c, "signals", "oi_alerts"),
      CreateSubscription(c, "signals", "pricealerts"),
      CreateSubscription(c, "signals", "volalerts")
    ]
  }

  function FastSubscriptions(c: Config): seq<Subscription> {
    [CreateSubscription(c, "cex_alerts", "listings")] +
    (if c.enableDelistings then [CreateSubscription(c, "cex_alerts", "delistings")] else []) +
    (if c.enableAnnouncementDelistingFallback then [CreateSubscription(c, "cex_alerts", "announcement")] else [])
  }

  predicate DistinctKeys(subs: seq<Subscription>) {
    forall i, j | 0 <= i < j < |subs| :: SubscriptionKey(subs[i]) != SubscriptionKey(subs[j])
  }

  /** The chapter's own and the category's fields, unless the configured extras replace them. */
  function BuildSubscribePayload(s: Subscription): Payload {
    map["chapter" := s.chapter, "category" := s.category] + s.payload
  }

  // ---- one endpoint -------------------------------------------------------------------------

  datatype Status = Status(key: string, attempted: bool, attempts: nat, payloadPreview: Option<Payload>)

  datatype Reason = OnConnect | OnConnected | OnRefresh

  datatype Pass = Pass(reason: Reason, generation: int)

  /**
   * `up` is the socket's own `connected` flag. `frames` is what was emitted; `passes` and
   * `reconnects` (the generation at each pass and each reconnect notice) are only recorded here.
   */
  datatype Endpoint = Endpoint(
    up: bool,
    timer: bool,
    generation: int,
    subscribed: int,
    connectAttempted: int,
    serverConnected: bool,
    statuses: seq<Status>,
    frames: seq<Payload>,
    passes: seq<Pass>,
    reconnects: seq<int>)

  datatype Step = Connect | Connected | ConnectError | Disconnect | Reconnect | Refresh | Stop

  function CreateStatus(s: Subscription): Status {
    Status(SubscriptionKey(s), false, 0, None)
  }

  function Initial(subs: seq<Subscription>): Endpoint {
    Endpoint(false, true, 0, -1, -1, false,
             seq(|subs|, i requires 0 <= i < |subs| => CreateStatus(subs[i])), [], [], [])
  }

  function Find(subs: seq<Subscription>, key: string): Option<Subscription> {
    if subs == [] then None
    else if SubscriptionKey(subs[0]) == key then Some(subs[0])
    else Find(subs[1..], key)
  }

  /** What one pass emits for a list of statuses. */
  function Emitted(subs: seq<Subscription>, statuses: seq<Status>): seq<Payload> {
    if statuses == [] then []
    else
      Emitted(subs, statuses[..|statuses| - 1]) +
      match Find(subs, statuses[|statuses| - 1].key)
      case Some(s) => [BuildSubscribePayload(s)]
      case None => []
  }

  function Attempted(subs: seq<Subscription>, status: Status): Status {
    match Find(subs, status.key)
    case Some(s) =>
      status.(attempted := true, attempts := status.attempts + 1, payloadPreview := Some(BuildSubscribePayload(s)))
    case None => status
  }

  /** The loop of `subscribeAll`. */
  function DoPass(subs: seq<Subscription>, e: Endpoint, reason: Reason): Endpoint {
    e.(statuses := seq(|e.statuses|, i requires 0 <= i < |e.statuses| => Attempted(subs, e.statuses[i])),
       frames := e.frames + Emitted(subs, e.statuses),
       passes := e.passes + [Pass(reason, e.generation)])
  }

  function SubscribeAll(subs: seq<Subscription>, e: Endpoint, reason: Reason, force: bool,
                        requireServerConnected: bool): Endpoint
  {
    if !e.up then e
    else if requireServerConnected && !e.serverConnected then e
    else if reason.OnConnect? then
      if e.connectAttempted == e.generation then e else DoPass(subs, e.(connectAttempted := e.generation), reason)
    else if !force && e.subscribed == e.generation then e
    else DoPass(subs, e.(subscribed := e.generation), reason)
  }

  function Disconnected(e: Endpoint): Endpoint {
    e.(up := false, subscribed := -1, connectAttempted := -1, serverConnected := false)
  }

  function Next(subs: seq<Subscription>, e: Endpoint, step: Step): Endpoint {
    match step
    case Connect =>
      SubscribeAll(subs, e.(up := true, generation := e.generation + 1, subscribed := -1, serverConnected := false),
                   OnConnect, false, false)
    case Connected => SubscribeAll(subs, e.(serverConnected := true), OnConnected, false, true)
    case ConnectError => e.(serverConnected := false)
    case Disconnect => Disconnected(e)
    case Reconnect => e.(subscribed := -1, reconnects := e.reconnects + [e.generation])
    case Refresh => if e.timer then SubscribeAll(subs, e, OnRefresh, true, false) else e
    case Stop => (if e.up then Disconnected(e) else e).(timer := false)
  }

  function Run(subs: seq<Subscription>, steps: seq<Step>): Endpoint {
    if steps == [] then Initial(subs) else Next(subs, Run(subs, steps[..|steps| - 1]), steps[|steps| - 1])
  }

  // ---- the client's closure -----------------------------------------------------------------

  class EndpointClient {
    const subscriptions: seq<Subscription>
    var up: bool
    var timer: bool
    var generation: int
    var subscribedGeneration: int
    var connectAttemptedGeneration: int
    var serverConnected: bool
    var statuses: seq<Status>
    var frames: seq<Payload>
    ghost var passes: seq<Pass>
    ghost var reconnects: seq<int>

    ghost function View(): Endpoint
      reads this
    {
      Endpoint(up, timer, generation, subscribedGeneration, connectAttemptedGeneration, serverConnected,
               statuses, frames, passes, reconnects)
    }

    constructor (subscriptions: seq<Subscription>)
      ensures this.subscriptions == subscriptions && View() == Initial(subscriptions)
    {
      this.subscriptions := subscriptions;
      up, timer, serverConnected := false, true, false;
      generation, subscribedGeneration, connectAttemptedGeneration := 0, -1, -1;
      statuses := seq(|subscriptions|, i requires 0 <= i < |subscriptions| => CreateStatus(subscriptions[i]));
      frames, passes, reconnects := [], [], [];
    }

    /** The loop of `subscribeAll`. */
    method EmitPass(reason: Reason)
      modifies `statuses, `frames, `passes
      ensures View() == DoPass(subscriptions, old(View()), reason)
    {
      hide BuildSubscribePayload, SubscriptionKey, Attempted;
      var current, next := statuses, [];
      for i := 0 to |current|
        invariant statuses == current && passes == old(passes)
        invariant next == seq(i, k requires 0 <= k < i => Attempted(subscriptions, current[k]))
        invariant frames == old(frames) + Emitted(subscriptions, current[..i])
      {
        assert current[..i + 1][..i] == current[..i];
        var found := Find(subscriptions, current[i].key);
        if found.Some? {
          frames := frames + [BuildSubscribePayload(found.value)];
        }
        next := next + [Attempted(subscriptions, current[i])];
      }
      assert current[..|current|] == current;
      statuses := next;
      passes := passes + [Pass(reason, generation)];
    }

    method DoSubscribeAll(reason: Reason, force: bool, requireServerConnected: bool)
      modifies this
      ensures View() == SubscribeAll(subscriptions, old(View()), reason, force, requireServerConnected)
    {
      hide DoPass;
      if !up || (requireServerConnected && !serverConnected) {
        return;
      }
      if reason.OnConnect? {
        if connectAttemptedGeneration == generation {
          return;
        }
        connectAttemptedGeneration := generation;
      } else if !force && subscribedGeneration == generation {
        return;
      } else {
        subscribedGeneration := generation;
      }
      EmitPass(reason);
    }

    method OnConnectEvent()
      modifies this
      ensures View() == Next(subscriptions, old(View()), Connect)
    {
      up := true;
      generation := generation + 1;
      subscribedGeneration := -1;
      serverConnected := false;
      DoSubscribeAll(OnConnect, false, false);
    }

    method OnConnectedEvent()
      modifies this
      ensures View() == Next(subscriptions, old(View()), Connected)
    {
      serverConnected := true;
      DoSubscribeAll(OnConnected, false, true);
    }

    method OnConnectError()
      modifies this
      ensures View() == Next(subscriptions, old(View()), ConnectError)
    {
      serverConnected := false;
    }

    method OnDisconnect()
      modifies this
      ensures View() == Next(subscriptions, old(View()), Disconnect)
    {
      up := false;
      subscribedGeneration := -1;
      connectAttemptedGeneration := -1;
      serverConnected := false;
    }

    method OnReconnect()
      modifies this
      ensures View() == Next(subscriptions, old(View()), Reconnect)
    {
      subscribedGeneration := -1;
      reconnects := reconnects + [generation];
    }

    method OnRefreshTimer()
      modifies this
      ensures View() == Next(subscriptions, old(View()), Refresh)
    {
      if timer {
        DoSubscribeAll(OnRefresh, true, false);
      }
    }

    method StopEndpoint()
      modifies this
      ensures View() == Next(subscriptions, old(View()), Stop)
    {
      if up {
        OnDisconnect();
      }
      timer := false;
    }
  }
}
