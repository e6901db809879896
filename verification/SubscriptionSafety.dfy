/** The subscribe protocol over every sequence of socket events and timer ticks. */
module SubscriptionSafety {
  import opened Wrappers
  import opened Subscriptions

  // ---- keys ---------------------------------------------------------------------------------

  /** Enough of a key to tell the configured ones apart. */
  function Mark(key: string): (nat, char, char, char)
    requires |key| > 8
  {
    (|key|, key[0], key[8], key[|key| - 1])
  }

  function MainMarks(): seq<(nat, char, char, char)> {
    [
        (30, 'c', 't', 'p'), (30, 'c', 't', 'r'), (23, 'c', 't', 'p'), (23, 'c', 't', 'r'),
        (22, 'c', 't', 't'), (20, 'c', 't', 'k'), (18, 'm', 'a', 'i'), (23, 'm', 'a', 'g'),
        (22, 'm', 'a', 'o'), (20, 'o', '2', 's'), (19, 'o', '1', 's'), (17, 's', 'o', 's'),
        (19, 's', 'p', 's'), (17, 's', 'v', 's')
    ]
  }

  lemma MainKeysMarked(c: Config, i: nat)
    requires i < |MainSubscriptions(c)|
    ensures |MainSubscriptions(c)| == |MainMarks()| && |SubscriptionKey(MainSubscriptions(c)[i])| > 8
    ensures Mark(SubscriptionKey(MainSubscriptions(c)[i])) == MainMarks()[i]
  {
  }

  lemma MarksDistinct()
    ensures forall i, j | 0 <= i < j < |MainMarks()| :: MainMarks()[i] != MainMarks()[j]
  {
  }

  /** Under every configuration no endpoint subscribes to one key twice. */
  lemma ConfiguredKeysDistinct(c: Config)
    ensures DistinctKeys(MainSubscriptions(c)) && DistinctKeys(FastSubscriptions(c))
  {
    var subs := MainSubscriptions(c);
    forall i, j | 0 <= i < j < |subs|
      ensures SubscriptionKey(subs[i]) != SubscriptionKey(subs[j])
    {
      hide MainMarks, SubscriptionKey, MainSubscriptions;
      MainKeysMarked(c, i);
      MainKeysMarked(c, j);
      MarksDistinct();
    }
  }

  // ---- counting passes ----------------------------------------------------------------------

  function PassCount(passes: seq<Pass>, reason: Reason, generation: int): nat {
    if passes == [] then 0
    else
      PassCount(passes[..|passes| - 1], reason, generation) +
      if passes[|passes| - 1] == Pass(reason, generation) then 1 else 0
  }

  function Notices(reconnects: seq<int>, generation: int): nat {
    if reconnects == [] then 0
    else
      Notices(reconnects[..|reconnects| - 1], generation) +
      if reconnects[|reconnects| - 1] == generation then 1 else 0
  }

  /** Unforced connected passes a generation may have had so far. */
  function Allowance(e: Endpoint, generation: int): int {
    Notices(e.reconnects, generation) +
      if generation == e.generation && e.up && e.subscribed != generation then 0 else 1
  }

  ghost predicate Paced(e: Endpoint) {
    && e.generation >= 0 && e.connectAttempted <= e.generation
    && (forall g :: PassCount(e.passes, OnConnect, g) == if 1 <= g <= e.generation then 1 else 0)
    && (forall g :: PassCount(e.passes, OnConnected, g) <= Allowance(e, g))
    && (forall g | g > e.generation :: PassCount(e.passes, OnConnected, g) == 0 && Notices(e.reconnects, g) == 0)
    && (e.up ==> e.generation > 0)
    && (e.generation == 0 ==> PassCount(e.passes, OnConnected, 0) == 0)
  }

  lemma OnePassMore(passes: seq<Pass>, pass: Pass)
    ensures forall reason, g :: PassCount(passes + [pass], reason, g) ==
                                PassCount(passes, reason, g) + if pass == Pass(reason, g) then 1 else 0
  {
    assert (passes + [pass])[..|passes|] == passes;
  }

  lemma OneNoticeMore(reconnects: seq<int>, generation: int)
    ensures forall g ::
            Notices(reconnects + [generation], g) == Notices(reconnects, g) + if g == generation then 1 else 0
  {
    assert (reconnects + [generation])[..|reconnects|] == reconnects;
  }

  lemma NextPaced(subs: seq<Subscription>, e: Endpoint, step: Step)
    requires Paced(e)
    ensures Paced(Next(subs, e, step))
  {
    hide PassCount, Notices, Emitted, Attempted;
    match step
    case Connect =>
      OnePassMore(e.passes, Pass(OnConnect, e.generation + 1));
    case Connected =>
      OnePassMore(e.passes, Pass(OnConnected, e.generation));
    case Refresh =>
      OnePassMore(e.passes, Pass(OnRefresh, e.generation));
    case Reconnect =>
      OneNoticeMore(e.reconnects, e.generation);
    case _ =>
  }

  lemma {:induction false} RunPaced(subs: seq<Subscription>, steps: seq<Step>)
    ensures Paced(Run(subs, steps))
  {
    hide Paced, Next;
    if steps == [] {
      StartPaced(subs);
    } else {
      RunPaced(subs, steps[..|steps| - 1]);
      NextPaced(subs, Run(subs, steps[..|steps| - 1]), steps[|steps| - 1]);
    }
  }

  lemma StartPaced(subs: seq<Subscription>)
    ensures Paced(Initial(subs))
  {
  }

  // ---- what is sent -------------------------------------------------------------------------

  function Payloads(subs: seq<Subscription>): seq<Payload> {
    seq(|subs|, i requires 0 <= i < |subs| => BuildSubscribePayload(subs[i]))
  }

  function Rounds<T>(round: seq<T>, n: nat): seq<T> {
    if n == 0 then [] else Rounds(round, n - 1) + round
  }

  /** Every status belongs to its subscription and has been attempted once in each pass; a pass sends every payload. */
  ghost predicate Sent(subs: seq<Subscription>, e: Endpoint) {
    && |e.statuses| == |subs|
    && (forall i | 0 <= i < |subs| ::
          e.statuses[i] == Status(SubscriptionKey(subs[i]), e.passes != [], |e.passes|,
                                  if e.passes == [] then None else Some(BuildSubscribePayload(subs[i]))))
    && e.frames == Rounds(Payloads(subs), |e.passes|)
  }

  lemma {:induction false} FindOwn(subs: seq<Subscription>, i: nat)
    requires DistinctKeys(subs) && i < |subs|
    ensures Find(subs, SubscriptionKey(subs[i])) == Some(subs[i])
  {
    if i > 0 {
      FindOwn(subs[1..], i - 1);
    }
  }

  lemma {:induction false} EmittedPayloads(subs: seq<Subscription>, statuses: seq<Status>, n: nat)
    requires DistinctKeys(subs) && |statuses| == |subs| && n <= |subs|
    requires forall i | 0 <= i < |subs| :: statuses[i].key == SubscriptionKey(subs[i])
    ensures Emitted(subs, statuses[..n]) == Payloads(subs)[..n]
  {
    if n > 0 {
      assert statuses[..n][..n - 1] == statuses[..n - 1];
      EmittedPayloads(subs, statuses, n - 1);
      FindOwn(subs, n - 1);
    }
  }

  lemma AttemptedOwn(subs: seq<Subscription>, status: Status, i: nat)
    requires DistinctKeys(subs) && i < |subs| && status.key == SubscriptionKey(subs[i])
    ensures Attempted(subs, status) ==
            Status(status.key, true, status.attempts + 1, Some(BuildSubscribePayload(subs[i])))
  {
    FindOwn(subs, i);
  }

  lemma PassSends(subs: seq<Subscription>, e: Endpoint, reason: Reason)
    requires DistinctKeys(subs) && Sent(subs, e)
    ensures Sent(subs, DoPass(subs, e, reason))
  {
    hide Attempted, DistinctKeys, BuildSubscribePayload, SubscriptionKey;
    EmittedPayloads(subs, e.statuses, |subs|);
    assert e.statuses[..|subs|] == e.statuses && Payloads(subs)[..|subs|] == Payloads(subs);
    forall i | 0 <= i < |subs| {
      AttemptedOwn(subs, e.statuses[i], i);
    }
  }

  lemma NextSends(subs: seq<Subscription>, e: Endpoint, step: Step)
    requires DistinctKeys(subs) && Sent(subs, e)
    ensures Sent(subs, Next(subs, e, step))
  {
    hide DoPass;
    forall d: Endpoint, reason | d.statuses == e.statuses && d.frames == e.frames && d.passes == e.passes
      ensures Sent(subs, DoPass(subs, d, reason))
    {
      assert Sent(subs, d);
      PassSends(subs, d, reason);
    }
  }

  lemma {:induction false} RunSends(subs: seq<Subscription>, steps: seq<Step>)
    requires DistinctKeys(subs)
    ensures Sent(subs, Run(subs, steps))
  {
    if steps != [] {
      hide Next, Sent;
      RunSends(subs, steps[..|steps| - 1]);
      NextSends(subs, Run(subs, steps[..|steps| - 1]), steps[|steps| - 1]);
    }
  }

  // ---- every run ----------------------------------------------------------------------------

  /** Frames go out only in steps that leave the socket connected. */
  lemma FramesOnlyWhileConnected(subs: seq<Subscription>, steps: seq<Step>, step: Step)
    requires !Run(subs, steps + [step]).up
    ensures Run(subs, steps + [step]).frames == Run(subs, steps).frames
    ensures Run(subs, steps + [step]).passes == Run(subs, steps).passes
  {
    hide Attempted, Emitted;
    assert (steps + [step])[..|steps|] == steps;
  }

  /**
   * Each generation has exactly one connect pass, and at most one unforced connected pass more than
   * it had reconnect notices.
   */
  lemma PassesPerGeneration(subs: seq<Subscription>, steps: seq<Step>, generation: int)
    ensures var e := Run(subs, steps);
      && PassCount(e.passes, OnConnect, generation) == (if 1 <= generation <= e.generation then 1 else 0)
      && PassCount(e.passes, OnConnected, generation) <= 1 + Notices(e.reconnects, generation)
  {
    hide PassCount, Notices;
    RunPaced(subs, steps);
  }

  /** Every subscription has been attempted once in each pass, and each pass has sent every payload in order. */
  lemma AttemptsCountPasses(c: Config, fast: bool, steps: seq<Step>)
    ensures var subs := if fast then FastSubscriptions(c) else MainSubscriptions(c);
      var e := Run(subs, steps);
      && (forall i | 0 <= i < |subs| :: i < |e.statuses| && e.statuses[i].attempts == |e.passes|)
      && e.frames == Rounds(Payloads(subs), |e.passes|)
  {
    hide FastSubscriptions, MainSubscriptions, Run, Payloads;
    ConfiguredKeysDistinct(c);
    RunSends(if fast then FastSubscriptions(c) else MainSubscriptions(c), steps);
  }
}
