/** When a pick keeps every trial slot accounted for, strategy by strategy, told from the
    state before the pick. */
module SlotsExactly {
  import opened Breaker
  import opened HealthChecker
  import opened Balancer
  import opened BalancerTheorems
  import opened Engine
  import opened Proxy
  import opened Gateway
  import opened GatewaySafety
  import opened LeastConnectionsRuns

  /** `b` is up, its cooldown is over and nobody has an attempt out on it: whoever asks
      about it next takes its trial. */
  ghost predicate Due(g: Gateway, up: set<string>, b: string) {
    && g.live.Current? && b in g.live.gen.circuits && b in g.live.gen.backends && b in up
    && g.live.gen.circuits[b].state == Open && Admits(g.live.gen.circuits[b], g.now) && !Held(g, b)
  }

  /** Under a strategy that asks everybody, the slots are kept exactly if the pick is every
      backend that is due. */
  lemma SurveyKeepsSlots(g: Gateway, st: Step)
    requires SlotsHeld(g) && st.Choose? && Enabled(g, st)
    requires g.live.Current? && Coherent(g.live.gen) && !Scans(g.live.gen.bal)
    ensures SlotsHeld(Apply(g, st)) <==>
            forall b {:trigger Due(g, st.up, b)} :: Due(g, st.up, b) ==> PickFor(g, st) == Picked(b)
  {
    ChooseKeepsSlotsExactly(g, st);
    forall b ensures Due(g, st.up, b) <==> TakesTrial(g, st, b) && !Held(g, b) {}
  }

  /** The strategies that stop at the first backend that answers always keep them. */
  lemma ScansKeepSlots(g: Gateway, st: Step)
    requires SlotsHeld(g) && st.Choose? && Enabled(g, st) && g.live.Current? && Scans(g.live.gen.bal)
    ensures SlotsHeld(Apply(g, st))
  {
    ChooseKeepsSlotsExactly(g, st);
  }

  // ---- least_connections ----

  predicate DistinctUp(urls: seq<string>) {
    forall i, j :: 0 <= i < j < |urls| ==> urls[i] != urls[j]
  }

  /** The running best of the scan over the first `n` backends. */
  function BestOf(urls: seq<string>, n: nat, cs: Circuits, up: set<string>, now: int, conns: map<string, int>): Best
    requires n <= |urls|
  {
    LeastLoaded(AskAll(urls[..n], cs, up, now).healthy, conns)
  }

  lemma BestStep(urls: seq<string>, n: nat, cs: Circuits, up: set<string>, now: int, conns: map<string, int>)
    requires n < |urls| && DistinctUp(urls)
    ensures BestOf(urls, n + 1, cs, up, now, conns) ==
            if Answers(cs, up, urls[n], now)
            then Consider(BestOf(urls, n, cs, up, now, conns), urls[n], Load(conns, urls[n]))
            else BestOf(urls, n, cs, up, now, conns)
  {
    var before := AskAll(urls[..n], cs, up, now);
    assert urls[..n + 1][..n] == urls[..n];
    AskAllAt(urls[..n], cs, up, now, urls[n]);
    assert urls[n] !in urls[..n];
    assert Answers(before.circuits, up, urls[n], now) == Answers(cs, up, urls[n], now);
    if Answers(cs, up, urls[n], now) {
      LeastSnoc(before.healthy, urls[n], conns);
    } else {
      assert before.healthy + [] == before.healthy;
    }
  }

  lemma LeastSnoc(healthy: seq<string>, b: string, conns: map<string, int>)
    ensures LeastLoaded(healthy + [b], conns) == Consider(LeastLoaded(healthy, conns), b, Load(conns, b))
  {
    assert (healthy + [b])[..|healthy|] == healthy;
  }

  /** Nobody among the first `n` answers with nothing to do. */
  predicate AllBusy(urls: seq<string>, n: nat, cs: Circuits, up: set<string>, now: int, conns: map<string, int>)
    requires n <= |urls|
  {
    forall j :: 0 <= j < n && Answers(cs, up, urls[j], now) ==> Load(conns, urls[j]) > 0
  }

  lemma {:induction false} BusyBest(
    urls: seq<string>, n: nat, cs: Circuits, up: set<string>, now: int, conns: map<string, int>)
    requires n <= |urls| && DistinctUp(urls) && AllBusy(urls, n, cs, up, now, conns)
    ensures var best := BestOf(urls, n, cs, up, now, conns); best == Best("", -1) || best.count > 0
    decreases n
  {
    if n == 0 {
      assert urls[..0] == [];
      assert AskAll([], cs, up, now).healthy == [];
    } else {
      BusyBest(urls, n - 1, cs, up, now, conns);
      BestStep(urls, n - 1, cs, up, now, conns);
    }
  }

  /** The first idle backend that answers is the best of every longer scan. */
  lemma {:induction false} FirstIdleWins(
    urls: seq<string>, k: nat, n: nat, cs: Circuits, up: set<string>, now: int, conns: map<string, int>)
    requires k < n <= |urls| && DistinctUp(urls) && forall b :: b in conns ==> conns[b] >= 0
    requires Answers(cs, up, urls[k], now) && Load(conns, urls[k]) == 0 && AllBusy(urls, k, cs, up, now, conns)
    ensures BestOf(urls, n, cs, up, now, conns) == Best(urls[k], 0)
    decreases n
  {
    BestStep(urls, n - 1, cs, up, now, conns);
    if n == k + 1 {
      BusyBest(urls, k, cs, up, now, conns);
    } else {
      FirstIdleWins(urls, k, n - 1, cs, up, now, conns);
    }
  }

  /** Somebody idle that answers, before `k`: then there is a first one. */
  lemma {:induction false} FirstIdle(
    urls: seq<string>, k: nat, cs: Circuits, up: set<string>, now: int, conns: map<string, int>) returns (j: nat)
    requires k <= |urls| && !AllBusy(urls, k, cs, up, now, conns)
    ensures j < k && Answers(cs, up, urls[j], now) && Load(conns, urls[j]) <= 0 && AllBusy(urls, j, cs, up, now, conns)
    decreases k
  {
    if AllBusy(urls, k - 1, cs, up, now, conns) {
      j := k - 1;
    } else {
      j := FirstIdle(urls, k - 1, cs, up, now, conns);
    }
  }

  /** An idle backend that answers is picked exactly if everybody before it that answers
      has something to do. */
  lemma IdlePickedExactly(gen: Generation, up: set<string>, hint: nat, now: int, k: nat)
    requires Coherent(gen) && gen.bal.LeastBal? && k < |gen.backends|
    requires forall b :: b in gen.bal.conns ==> gen.bal.conns[b] >= 0
    requires Answers(gen.circuits, up, gen.backends[k], now) && Load(gen.bal.conns, gen.backends[k]) == 0
    ensures PickNext(gen, up, hint, now).pick == Picked(gen.backends[k]) <==>
            AllBusy(gen.backends, k, gen.circuits, up, now, gen.bal.conns)
  {
    var urls, conns := gen.backends, gen.bal.conns;
    var j := k;
    if !AllBusy(urls, k, gen.circuits, up, now, conns) {
      j := FirstIdle(urls, k, gen.circuits, up, now, conns);
    }
    FirstIdleWins(urls, j, |urls|, gen.circuits, up, now, conns);
    assert urls[..|urls|] == urls;
  }

  /** Every backend before `b` in the pool that answers has a request out on it. */
  ghost predicate BehindBusy(g: Gateway, up: set<string>, b: string)
    requires g.live.Current?
  {
    var gen := g.live.gen;
    forall j, k :: 0 <= j < k < |gen.backends| && gen.backends[k] == b ==>
      Answers(gen.circuits, up, gen.backends[j], g.now) ==> Callers(g, gen.backends[j]) != {}
  }

  lemma DuePickedExactly(g: Gateway, st: Step, b: string)
    requires CountsRight(g) && st.Choose? && Enabled(g, st) && Due(g, st.up, b)
    requires Coherent(g.live.gen) && g.live.gen.bal.LeastBal?
    ensures PickFor(g, st) == Picked(b) <==> BehindBusy(g, st.up, b)
  {
    var gen := g.live.gen;
    var k :| 0 <= k < |gen.backends| && gen.backends[k] == b;
    NoCallers(g, b);
    IdlePickedExactly(gen, st.up, st.hint, g.now, k);
    BusyIsCalled(g, st.up, k);
  }

  /** A backend with no attempt out has no callers. */
  lemma NoCallers(g: Gateway, b: string)
    requires !Held(g, b)
    ensures Callers(g, b) == {}
  {
    forall id | id in g.requests ensures g.requests[id].phase != Calling(b) {
      assert !HeldBy(g.requests[id], b);
    }
  }

  /** With right counts, having something to do is having a request out. */
  lemma BusyIsCalled(g: Gateway, up: set<string>, k: nat)
    requires CountsRight(g) && g.live.Current? && Coherent(g.live.gen) && g.live.gen.bal.LeastBal?
    requires k < |g.live.gen.backends|
    ensures AllBusy(g.live.gen.backends, k, g.live.gen.circuits, up, g.now, g.live.gen.bal.conns) <==>
            BehindBusy(g, up, g.live.gen.backends[k])
  {
    var gen := g.live.gen;
    forall j | 0 <= j < |gen.backends|
      ensures Load(gen.bal.conns, gen.backends[j]) > 0 <==> Callers(g, gen.backends[j]) != {}
    {
      assert gen.backends[j] in gen.bal.conns;
    }
  }

  /** When a pick of least_connections with right counts keeps the slots: exactly if, for
      every backend that is due, every backend before it in the pool that answers has a
      request out on it. Otherwise a trial leaks. */
  lemma LeastKeepsSlotsExactly(g: Gateway, st: Step)
    requires SlotsHeld(g) && CountsRight(g) && st.Choose? && Enabled(g, st)
    requires g.live.Current? && Coherent(g.live.gen) && g.live.gen.bal.LeastBal?
    ensures SlotsHeld(Apply(g, st)) <==>
            forall b {:trigger Due(g, st.up, b)} :: Due(g, st.up, b) ==> BehindBusy(g, st.up, b)
  {
    SurveyKeepsSlots(g, st);
    forall b | Due(g, st.up, b) ensures PickFor(g, st) == Picked(b) <==> BehindBusy(g, st.up, b) {
      DuePickedExactly(g, st, b);
    }
  }

  // ---- random ----

  /** `b` is the only backend of the pool that answers. */
  ghost predicate OnlyAnswer(g: Gateway, up: set<string>, b: string)
    requires g.live.Current?
  {
    forall x :: x in g.live.gen.backends && Answers(g.live.gen.circuits, up, x, g.now) ==> x == b
  }

  function Drawn(healthy: seq<string>, hint: nat): string
    requires healthy != []
  {
    healthy[hint % |healthy|]
  }

  lemma EveryDraw(healthy: seq<string>, b: string)
    requires b in healthy
    ensures (forall hint: nat :: Drawn(healthy, hint) == b) <==> forall x :: x in healthy ==> x == b
  {
    if x :| x in healthy && x != b {
      var i: nat :| i < |healthy| && healthy[i] == x;
      assert i % |healthy| == i;
      assert Drawn(healthy, i) == x;
    } else {
      forall hint: nat ensures Drawn(healthy, hint) == b {
        assert healthy[hint % |healthy|] in healthy;
      }
    }
  }

  lemma RandomPick(g: Gateway, id: nat, up: set<string>, hint: nat, healthy: seq<string>)
    requires g.live.Current? && Coherent(g.live.gen) && g.live.gen.bal.RandomBal? && healthy != []
    requires healthy == AskAll(g.live.gen.backends, g.live.gen.circuits, up, g.now).healthy
    ensures PickFor(g, Choose(id, up, hint)) == Picked(Drawn(healthy, hint))
  {
  }

  /** The backend that is due is what every draw picks exactly if nobody else answers. */
  lemma DueEveryDraw(g: Gateway, id: nat, up: set<string>, b: string)
    requires g.live.Current? && Coherent(g.live.gen) && g.live.gen.bal.RandomBal? && Due(g, up, b)
    ensures (forall hint: nat :: PickFor(g, Choose(id, up, hint)) == Picked(b)) <==> OnlyAnswer(g, up, b)
  {
    var healthy := AskAll(g.live.gen.backends, g.live.gen.circuits, up, g.now).healthy;
    forall x ensures x in healthy <==> x in g.live.gen.backends && Answers(g.live.gen.circuits, up, x, g.now) {
      AskAllAt(g.live.gen.backends, g.live.gen.circuits, up, g.now, x);
    }
    forall hint: nat ensures PickFor(g, Choose(id, up, hint)) == Picked(Drawn(healthy, hint)) {
      RandomPick(g, id, up, hint, healthy);
    }
    EveryDraw(healthy, b);
  }

  ghost predicate KeptByEveryDraw(g: Gateway, id: nat, up: set<string>) {
    forall hint: nat :: SlotsHeld(Apply(g, Choose(id, up, hint)))
  }

  /** When random keeps the slots whatever is drawn: exactly if every backend that is due
      is the only one that answers. */
  lemma RandomKeepsSlotsExactly(g: Gateway, id: nat, up: set<string>)
    requires SlotsHeld(g) && id in g.requests && g.requests[id].phase.Choosing?
    requires g.live.Current? && Coherent(g.live.gen) && g.live.gen.bal.RandomBal?
    ensures KeptByEveryDraw(g, id, up) <==>
            forall b {:trigger Due(g, up, b)} :: Due(g, up, b) ==> OnlyAnswer(g, up, b)
  {
    forall hint: nat
      ensures SlotsHeld(Apply(g, Choose(id, up, hint))) <==>
              forall b {:trigger Due(g, up, b)} :: Due(g, up, b) ==> PickFor(g, Choose(id, up, hint)) == Picked(b)
    {
      SurveyKeepsSlots(g, Choose(id, up, hint));
    }
    forall b | Due(g, up, b)
      ensures (forall hint: nat :: PickFor(g, Choose(id, up, hint)) == Picked(b)) <==> OnlyAnswer(g, up, b)
    {
      DueEveryDraw(g, id, up, b);
    }
  }
}
