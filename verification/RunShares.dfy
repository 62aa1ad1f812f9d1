/** What the picks of a run of the proxy add up to, and where a client's requests go. */
module RunShares {
  import opened Breaker
  import opened HealthChecker
  import opened Balancer
  import opened BalancerTheorems
  import opened Engine
  import opened Gateway

  predicate NoRebuild(steps: seq<Step>)
    decreases |steps|
  {
    steps == [] || (!steps[0].Rebuild? && NoRebuild(steps[1..]))
  }

  predicate Chooses(g: Gateway, st: Step) {
    st.Choose? && Enabled(g, st)
  }

  /** The picks the requests of a run get, in order. */
  function PicksOf(g: Gateway, steps: seq<Step>): seq<Pick>
    decreases |steps|
  {
    if steps == [] then []
    else (if Chooses(g, steps[0]) then [PickFor(g, steps[0])] else []) + PicksOf(Apply(g, steps[0]), steps[1..])
  }

  /** What each of them saw. */
  function MomentsOf(g: Gateway, steps: seq<Step>): seq<Moment>
    decreases |steps|
  {
    if steps == [] then []
    else (if Chooses(g, steps[0]) && g.live.Current? then [Moment(g.live.gen.circuits, steps[0].up, g.now)] else [])
         + MomentsOf(Apply(g, steps[0]), steps[1..])
  }

  // ---- turns ----

  predicate TakesTurns(bal: Bal) {
    bal.RoundRobinBal? || bal.WeightedBal?
  }

  function SlotsOf(bal: Bal): seq<string>
    requires TakesTurns(bal)
  {
    if bal.RoundRobinBal? then bal.urls else bal.slots
  }

  /** A pick moves the counter by one, and nothing else moves it. */
  lemma TurnStep(g: Gateway, st: Step)
    requires g.live.Current? && TakesTurns(g.live.gen.bal) && !st.Rebuild?
    ensures var g', bal := Apply(g, st), g.live.gen.bal;
      && g'.live.Current? && TakesTurns(g'.live.gen.bal) && SlotsOf(g'.live.gen.bal) == SlotsOf(bal)
      && g'.live.gen.bal.counter == bal.counter + (if Chooses(g, st) then 1 else 0)
      && (Chooses(g, st) ==>
            PickFor(g, st) == PickAt(SlotsOf(bal), bal.counter, Moment(g.live.gen.circuits, st.up, g.now)))
  {
  }

  /** The picks of a run are the picks of one counter, each at its own moment. */
  lemma {:induction false} PicksTakeTurns(g: Gateway, steps: seq<Step>)
    requires g.live.Current? && TakesTurns(g.live.gen.bal) && NoRebuild(steps)
    ensures PicksOf(g, steps) == Picks(SlotsOf(g.live.gen.bal), g.live.gen.bal.counter, MomentsOf(g, steps))
    decreases |steps|
  {
    if steps != [] {
      var g' := Apply(g, steps[0]);
      TurnStep(g, steps[0]);
      PicksTakeTurns(g', steps[1..]);
      if Chooses(g, steps[0]) {
        PicksCons(SlotsOf(g.live.gen.bal), g.live.gen.bal.counter,
                  Moment(g.live.gen.circuits, steps[0].up, g.now), MomentsOf(g', steps[1..]));
      } else {
        assert [] + PicksOf(g', steps[1..]) == PicksOf(g', steps[1..]);
        assert [] + MomentsOf(g', steps[1..]) == MomentsOf(g', steps[1..]);
      }
    }
  }

  lemma PicksCons(slots: seq<string>, counter: nat, m: Moment, ms: seq<Moment>)
    ensures Picks(slots, counter, [m] + ms) == [PickAt(slots, counter, m)] + Picks(slots, counter + 1, ms)
  {
    assert ([m] + ms)[1..] == ms;
  }

  /** The weighted split over runs: in any run without a rebuild that makes sum(weights)
      picks, whatever else its steps do, a backend that answers at each of them gets at
      least its weight, one if that is unset; and exactly that if and only if on every
      turn that is not its own somebody who answers stands before its next slot. */
  lemma WeightedShareOverRuns(g: Gateway, steps: seq<Step>, bs: seq<Entry>, k: nat)
    requires g.live.Current? && g.live.gen.bal.WeightedBal? && g.live.gen.bal.slots != [] && NoRebuild(steps)
    requires k < |bs| && DistinctUrls(bs) && Weighted(bs) && Blocks(bs, g.live.gen.bal.slots)
    requires |MomentsOf(g, steps)| == SlotsBefore(bs, |bs|)
    requires g.live.gen.bal.counter + 2 * SlotsBefore(bs, |bs|) <= INT_MAX
    requires forall i :: 0 <= i < |MomentsOf(g, steps)| ==> Willing(MomentsOf(g, steps)[i], bs[k].url)
    ensures Tally(PicksOf(g, steps), Picked(bs[k].url)) >= bs[k].weight
    ensures Tally(PicksOf(g, steps), Picked(bs[k].url)) >= 1
    ensures Tally(PicksOf(g, steps), Picked(bs[k].url)) == (if bs[k].weight == 0 then 1 else bs[k].weight) <==>
            AlwaysShielded(g.live.gen.bal.slots, g.live.gen.bal.counter, MomentsOf(g, steps), bs[k].url)
  {
    hide MomentsOf, PicksOf, Blocks, Weighted, SlotsBefore, Tally, AlwaysShielded, Willing;
    BlocksCount(bs, g.live.gen.bal.slots);
    PicksTakeTurns(g, steps);
    WeightedShare(bs, g.live.gen.bal.slots, g.live.gen.bal.counter, MomentsOf(g, steps), k);
  }

  lemma BlocksCount(bs: seq<Entry>, slots: seq<string>)
    requires Blocks(bs, slots)
    ensures |slots| == SlotsBefore(bs, |bs|)
  {
  }

  /** The same for round_robin, where everybody has one turn. */
  lemma RoundRobinShareOverRuns(g: Gateway, steps: seq<Step>, bs: seq<Entry>, k: nat)
    requires g.live.Current? && g.live.gen.bal.RoundRobinBal? && NoRebuild(steps)
    requires k < |bs| && DistinctUrls(bs) && g.live.gen.bal.urls == Urls(bs)
    requires |MomentsOf(g, steps)| == |bs| && g.live.gen.bal.counter + 2 * |bs| <= INT_MAX
    requires forall i :: 0 <= i < |MomentsOf(g, steps)| ==> Willing(MomentsOf(g, steps)[i], bs[k].url)
    ensures Tally(PicksOf(g, steps), Picked(bs[k].url)) >= 1
    ensures Tally(PicksOf(g, steps), Picked(bs[k].url)) == 1 <==>
            AlwaysShielded(Urls(bs), g.live.gen.bal.counter, MomentsOf(g, steps), bs[k].url)
  {
    hide MomentsOf, PicksOf, Tally, AlwaysShielded, Willing;
    PicksTakeTurns(g, steps);
    RoundRobinShare(bs, g.live.gen.bal.counter, MomentsOf(g, steps), k);
  }

  // ---- affinity ----

  /** Under ip_hash a client whose own backend answers is sent there. */
  lemma OwnBackendPicked(gen: Generation, up: set<string>, hash: nat, now: int)
    requires gen.bal.IPHashBal? && gen.bal.urls != []
    requires Answers(gen.circuits, up, gen.bal.urls[hash % |gen.bal.urls|], now)
    ensures PickNext(gen, up, hash, now).pick == Picked(gen.bal.urls[hash % |gen.bal.urls|])
  {
    RotationAt(gen.bal.urls, hash, 0);
  }

  lemma {:induction false} SameAnswers(
    order: seq<string>, cs: Circuits, up: set<string>, now: int, cs': Circuits, up': set<string>, now': int)
    requires forall i :: 0 <= i < |order| ==> (Answers(cs, up, order[i], now) <==> Answers(cs', up', order[i], now'))
    ensures FirstAnswering(order, cs, up, now) == FirstAnswering(order, cs', up', now')
  {
    if order != [] {
      SameAnswers(order[1..], cs, up, now, cs', up', now');
    }
  }

  /** Two clients that hash to the same position, or one client twice, go to the same
      backend as long as the same backends answer, whenever they come. */
  lemma SamePositionSameBackend(gen: Generation, up: set<string>, hash: nat, now: int,
                                gen': Generation, up': set<string>, hash': nat, now': int)
    requires gen.bal.IPHashBal? && gen'.bal.IPHashBal? && gen.bal.urls == gen'.bal.urls != []
    requires hash % |gen.bal.urls| == hash' % |gen.bal.urls|
    requires forall b :: b in gen.bal.urls ==>
               (Answers(gen.circuits, up, b, now) <==> Answers(gen'.circuits, up', b, now'))
    ensures PickNext(gen, up, hash, now).pick == PickNext(gen', up', hash', now').pick
  {
    var order := Rotation(gen.bal.urls, hash);
    assert order == Rotation(gen.bal.urls, hash');
    forall i | 0 <= i < |order|
      ensures Answers(gen.circuits, up, order[i], now) <==> Answers(gen'.circuits, up', order[i], now')
    {
      RotationAt(gen.bal.urls, hash, i);
    }
    SameAnswers(order, gen.circuits, up, now, gen'.circuits, up', now');
  }

  /** No step but a rebuild touches the balancer of ip_hash. */
  lemma {:induction false} AddressesStay(g: Gateway, steps: seq<Step>)
    requires g.live.Current? && g.live.gen.bal.IPHashBal? && NoRebuild(steps)
    ensures Run(g, steps).live.Current? && Run(g, steps).live.gen.bal == g.live.gen.bal
    decreases |steps|
  {
    if steps != [] {
      AddressesStay(Apply(g, steps[0]), steps[1..]);
    }
  }

  /** Affinity over runs: whatever happens between two requests short of a rebuild, the
      second goes to the backend the client hashes to if that one answers. */
  lemma AffinityOverRuns(g: Gateway, steps: seq<Step>, st: Step, home: string)
    requires g.live.Current? && g.live.gen.bal.IPHashBal? && g.live.gen.bal.urls != [] && NoRebuild(steps)
    requires st.Choose? && home == g.live.gen.bal.urls[st.hint % |g.live.gen.bal.urls|]
    requires Chooses(Run(g, steps), st) && Run(g, steps).live.Current?
    requires Answers(Run(g, steps).live.gen.circuits, st.up, home, Run(g, steps).now)
    ensures PickFor(Run(g, steps), st) == Picked(home)
  {
    AddressesStay(g, steps);
    OwnBackendPicked(Run(g, steps).live.gen, st.up, st.hint, Run(g, steps).now);
  }
}
