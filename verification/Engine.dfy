/** One generation of routing state and how a rebuild replaces it (cli/engine.go).
    A generation holds a balancer, a circuit per backend and the pool's URLs. */
module Engine {
  import opened Maps
  import opened Breaker
  import opened Balancer
  import opened BalancerTheorems

  /** The state of a balancer, one case per strategy. */
  datatype Bal =
    | RoundRobinBal(urls: seq<string>, counter: nat)
    | WeightedBal(slots: seq<string>, counter: nat)
    | LeastBal(urls: seq<string>, conns: map<string, int>)
    | RandomBal(urls: seq<string>)
    | IPHashBal(urls: seq<string>, counter: nat)

  datatype Generation = Generation(bal: Bal, circuits: Circuits, backends: seq<string>)

  datatype Live = NoGeneration | Current(gen: Generation)

  datatype Config = Config(backends: seq<Entry>, strategy: string, threshold: int, cooldown: int, probes: bool)

  // ---- mergeEntries ----

  /** An entry joins the pool unless its URL is empty or already there. */
  function Admit(pool: seq<Entry>, e: Entry): seq<Entry> {
    if e.url == "" || e.url in Urls(pool) then pool else pool + [e]
  }

  /** The pool after the first `n` entries have been offered. */
  function AdmitFirst(es: seq<Entry>, n: nat): seq<Entry>
    requires n <= |es|
  {
    if n == 0 then [] else Admit(AdmitFirst(es, n - 1), es[n - 1])
  }

  /** Configured backends first, then discovered ones with weight 1. */
  function Offered(configured: seq<Entry>, discovered: seq<string>): (es: seq<Entry>)
    ensures |es| == |configured| + |discovered|
  {
    configured + seq(|discovered|, i requires 0 <= i < |discovered| => Entry(discovered[i], 1))
  }

  function Pool(configured: seq<Entry>, discovered: seq<string>): seq<Entry> {
    AdmitFirst(Offered(configured, discovered), |configured| + |discovered|)
  }

  /** Entry `k` is named and nobody before it has its URL. */
  predicate Keeper(es: seq<Entry>, k: nat)
    requires k < |es|
  {
    es[k].url != "" && forall j :: 0 <= j < k ==> es[j].url != es[k].url
  }

  /** The keepers among the first `n` entries, in order, with the weights they were
      offered with. */
  function Keepers(es: seq<Entry>, n: nat): seq<Entry>
    requires n <= |es|
  {
    if n == 0 then [] else Keepers(es, n - 1) + if Keeper(es, n - 1) then [es[n - 1]] else []
  }

  lemma UrlsAppend(pool: seq<Entry>, e: Entry)
    ensures Urls(pool + [e]) == Urls(pool) + [e.url]
  {
    assert (pool + [e])[..|pool|] == pool;
  }

  /** Every named URL offered so far has a keeper. */
  lemma {:induction false} KeepersCover(es: seq<Entry>, n: nat, url: string)
    requires n <= |es| && url != ""
    ensures url in Urls(Keepers(es, n)) <==> exists j :: 0 <= j < n && es[j].url == url
  {
    if n > 0 {
      KeepersCover(es, n - 1, url);
      if Keeper(es, n - 1) {
        UrlsAppend(Keepers(es, n - 1), es[n - 1]);
      } else {
        assert Keepers(es, n) == Keepers(es, n - 1);
      }
    }
  }

  lemma {:induction false} AdmitKeeps(es: seq<Entry>, n: nat)
    requires n <= |es|
    ensures AdmitFirst(es, n) == Keepers(es, n)
  {
    if n > 0 {
      AdmitKeeps(es, n - 1);
      if es[n - 1].url != "" {
        KeepersCover(es, n - 1, es[n - 1].url);
      }
    }
  }

  predicate Named(pool: seq<Entry>) {
    forall i :: 0 <= i < |pool| ==> pool[i].url != ""
  }

  lemma {:induction false} KeepersDistinct(es: seq<Entry>, n: nat)
    requires n <= |es|
    ensures DistinctUrls(Keepers(es, n)) && Named(Keepers(es, n))
  {
    hide DistinctUrls, Named;
    if n > 0 {
      KeepersDistinct(es, n - 1);
      if Keeper(es, n - 1) {
        KeepersCover(es, n - 1, es[n - 1].url);
        AppendDistinct(Keepers(es, n - 1), es[n - 1]);
        AppendNamed(Keepers(es, n - 1), es[n - 1]);
      } else {
        assert Keepers(es, n) == Keepers(es, n - 1);
      }
    } else {
      NoneDistinct();
    }
  }

  lemma NoneDistinct()
    ensures DistinctUrls([]) && Named([])
  {
  }

  lemma AppendNamed(pool: seq<Entry>, e: Entry)
    requires Named(pool) && e.url != ""
    ensures Named(pool + [e])
  {
  }

  lemma AppendDistinct(pool: seq<Entry>, e: Entry)
    requires DistinctUrls(pool) && e.url !in Urls(pool)
    ensures DistinctUrls(pool + [e])
  {
    forall i | 0 <= i < |pool| ensures pool[i].url != e.url {
      assert Urls(pool)[i] in Urls(pool);
    }
  }

  /** The merged pool is exactly the first occurrences of the named URLs, in order. */
  lemma PoolIsKeepers(configured: seq<Entry>, discovered: seq<string>)
    ensures var es := Offered(configured, discovered);
      Pool(configured, discovered) == Keepers(es, |es|)
    ensures DistinctUrls(Pool(configured, discovered)) && Named(Pool(configured, discovered))
  {
    var es := Offered(configured, discovered);
    AdmitKeeps(es, |es|);
    KeepersDistinct(es, |es|);
  }

  predicate Tracks(seen: set<string>, pool: seq<Entry>) {
    seen == set u | u in Urls(pool)
  }

  /** One round of either loop. */
  method Offer(pool: seq<Entry>, seen: set<string>, e: Entry) returns (pool': seq<Entry>, seen': set<string>)
    requires Tracks(seen, pool)
    ensures pool' == Admit(pool, e) && Tracks(seen', pool')
  {
    pool', seen' := pool, seen;
    if e.url == "" || e.url in seen {
      return;
    }
    seen' := seen' + {e.url};
    pool' := pool' + [e];
    assert pool'[..|pool|] == pool;
  }

  lemma OfferedAt(configured: seq<Entry>, discovered: seq<string>, i: nat)
    requires i < |configured| + |discovered|
    ensures Offered(configured, discovered)[i] ==
            if i < |configured| then configured[i] else Entry(discovered[i - |configured|], 1)
  {
  }

  method MergeEntries(configured: seq<Entry>, discovered: seq<string>) returns (entries: seq<Entry>)
    ensures entries == Pool(configured, discovered)
  {
    ghost var all := Offered(configured, discovered);
    var seen: set<string> := {};
    entries := [];
    for i := 0 to |configured|
      invariant entries == AdmitFirst(all, i) && Tracks(seen, entries)
    {
      OfferedAt(configured, discovered, i);
      entries, seen := Offer(entries, seen, configured[i]);
    }
    entries := OfferDiscovered(entries, seen, configured, discovered);
  }

  /** The second loop of MergeEntries. */
  method OfferDiscovered(pool: seq<Entry>, seen: set<string>, ghost configured: seq<Entry>, discovered: seq<string>)
      returns (entries: seq<Entry>)
    requires Tracks(seen, pool) && pool == AdmitFirst(Offered(configured, discovered), |configured|)
    ensures entries == Pool(configured, discovered)
  {
    ghost var all := Offered(configured, discovered);
    entries := pool;
    var known := seen;
    for i := 0 to |discovered|
      invariant entries == AdmitFirst(all, |configured| + i) && Tracks(known, entries)
    {
      OfferedAt(configured, discovered, |configured| + i);
      entries, known := Offer(entries, known, Entry(discovered[i], 1));
    }
  }

  // ---- balancer.New ----

  predicate Known(strategy: string) {
    || strategy == "round_robin" || strategy == "weighted_round_robin" || strategy == "least_connections"
    || strategy == "random" || strategy == "ip_hash"
  }

  function NewBal(strategy: string, bs: seq<Entry>): Result<Bal> {
    if !Known(strategy) then Err(UnknownStrategy)
    else if bs == [] then Err(NoBackends)
    else if strategy == "weighted_round_robin" then
      if exists i :: 0 <= i < |bs| && bs[i].weight < 0 then Err(InvalidWeight)
      else Ok(WeightedBal(Slots(bs), 0))
    else if strategy == "round_robin" then Ok(RoundRobinBal(Urls(bs), 0))
    else if strategy == "least_connections" then Ok(LeastBal(Urls(bs), ZeroCounts(Urls(bs))))
    else if strategy == "random" then Ok(RandomBal(Urls(bs)))
    else Ok(IPHashBal(Urls(bs), 0))
  }

  /** Every name gives the balancer of that name, and no other name gives one. The names
      all have different lengths. */
  lemma NewNamed(strategy: string, bs: seq<Entry>)
    ensures strategy == "round_robin" && bs != [] ==> NewBal(strategy, bs) == Ok(RoundRobinBal(Urls(bs), 0))
    ensures strategy == "weighted_round_robin" && bs != [] && Weighted(bs) ==>
      var r := NewBal(strategy, bs);
      r.Ok? && r.value.WeightedBal? && r.value.counter == 0 && Blocks(bs, r.value.slots)
    ensures strategy == "weighted_round_robin" && bs != [] && !Weighted(bs) ==>
      NewBal(strategy, bs) == Err(InvalidWeight)
    ensures strategy == "least_connections" && bs != [] ==>
      NewBal(strategy, bs) == Ok(LeastBal(Urls(bs), ZeroCounts(Urls(bs))))
    ensures strategy == "random" && bs != [] ==> NewBal(strategy, bs) == Ok(RandomBal(Urls(bs)))
    ensures strategy == "ip_hash" && bs != [] ==> NewBal(strategy, bs) == Ok(IPHashBal(Urls(bs), 0))
    ensures bs == [] && strategy in ["round_robin", "weighted_round_robin", "least_connections", "random", "ip_hash"]
      ==> NewBal(strategy, bs) == Err(NoBackends)
    ensures NewBal(strategy, bs) == Err(UnknownStrategy) <==>
      strategy !in ["round_robin", "weighted_round_robin", "least_connections", "random", "ip_hash"]
  {
    hide Slots, Blocks;
    assert |"round_robin"| == 11 && |"weighted_round_robin"| == 20 && |"least_connections"| == 17;
    assert |"random"| == 6 && |"ip_hash"| == 7;
    if Weighted(bs) {
      SlotsAreBlocks(bs);
    }
  }

  /** Backends() of each strategy. */
  function BackendsOf(bal: Bal): seq<string> {
    if bal.WeightedBal? then Distinct(bal.slots) else bal.urls
  }

  lemma NewBalBackends(strategy: string, bs: seq<Entry>)
    requires NewBal(strategy, bs).Ok? && DistinctUrls(bs)
    ensures BackendsOf(NewBal(strategy, bs).value) == Urls(bs)
  {
    if strategy == "weighted_round_robin" {
      DistinctSlots(bs);
    }
  }

  // ---- rebuild ----

  /** CarryOverConns: only a balancer that counts takes counts over, and only from one
      that counts. */
  function CarriedBal(bal: Bal, prev: Live): Bal {
    if bal.LeastBal? && prev.Current? && prev.gen.bal.LeastBal?
    then bal.(conns := Taken(bal.conns, prev.gen.bal.conns, bal.conns.Keys))
    else bal
  }

  function CarriedCircuits(cs: Circuits, prev: Live): Circuits {
    if prev.Current? then Carried(cs, prev.gen.circuits, prev.gen.circuits.Keys) else cs
  }

  predicate RebuildFails(cfg: Config, discovered: seq<string>) {
    var entries := Pool(cfg.backends, discovered);
    entries == [] || NewBal(cfg.strategy, entries).Err?
  }

  function Rebuilt(live: Live, cfg: Config, discovered: seq<string>): Live {
    if RebuildFails(cfg, discovered) then live
    else
      var entries := Pool(cfg.backends, discovered);
      Current(Made(entries, NewBal(cfg.strategy, entries).value, cfg, live))
  }

  /** The pool, the circuits and the balancer of a generation speak of the same backends:
      at least one, all distinct and named. */
  ghost predicate Coherent(gen: Generation) {
    && gen.backends != []
    && (forall i :: 0 <= i < |gen.backends| ==> gen.backends[i] != "")
    && (forall i, j :: 0 <= i < j < |gen.backends| ==> gen.backends[i] != gen.backends[j])
    && (forall b :: b in gen.circuits <==> b in gen.backends)
    && BackendsOf(gen.bal) == gen.backends
    && (gen.bal.WeightedBal? ==> gen.bal.slots != [])
    && (gen.bal.LeastBal? ==> forall b :: b in gen.bal.conns <==> b in gen.backends)
  }

  lemma {:induction false} UrlsNamed(pool: seq<Entry>)
    requires pool != [] && Named(pool) && DistinctUrls(pool)
    ensures var us := Urls(pool);
      && us != []
      && (forall i :: 0 <= i < |us| ==> us[i] != "")
      && (forall i, j :: 0 <= i < j < |us| ==> us[i] != us[j])
  {
  }

  lemma GenerationIsCoherent(pool: seq<Entry>, cfg: Config, live: Live)
    requires pool != [] && DistinctUrls(pool) && Named(pool) && NewBal(cfg.strategy, pool).Ok?
    ensures Coherent(Made(pool, NewBal(cfg.strategy, pool).value, cfg, live))
  {
    UrlsNamed(pool);
    NewBalBackends(cfg.strategy, pool);
    NewBalShape(cfg.strategy, pool);
    CarriedShape(NewBal(cfg.strategy, pool).value, live);
  }

  lemma CarriedShape(bal: Bal, live: Live)
    ensures var after := CarriedBal(bal, live);
      && BackendsOf(after) == BackendsOf(bal)
      && (after.WeightedBal? <==> bal.WeightedBal?) && (bal.WeightedBal? ==> after.slots == bal.slots)
      && (after.LeastBal? <==> bal.LeastBal?) && (bal.LeastBal? ==> after.conns.Keys == bal.conns.Keys)
  {
  }

  /** The generation a rebuild makes of a pool. */
  function Made(pool: seq<Entry>, bal: Bal, cfg: Config, live: Live): Generation {
    Generation(CarriedBal(bal, live),
               CarriedCircuits(FreshCircuits(Urls(pool), cfg.threshold, cfg.cooldown), live),
               Urls(pool))
  }

  /** When a rebuild fails: exactly if no URL is named, the strategy is unknown, or the
      strategy is weighted and an entry that would be kept has a negative weight. */
  lemma RebuildFailsExactly(cfg: Config, discovered: seq<string>)
    ensures var es := Offered(cfg.backends, discovered);
      RebuildFails(cfg, discovered) <==>
        || (forall i :: 0 <= i < |es| ==> es[i].url == "")
        || cfg.strategy !in ["round_robin", "weighted_round_robin", "least_connections", "random", "ip_hash"]
        || (cfg.strategy == "weighted_round_robin" && exists i :: 0 <= i < |es| && Keeper(es, i) && es[i].weight < 0)
  {
    var es, pool := Offered(cfg.backends, discovered), Pool(cfg.backends, discovered);
    PoolIsKeepers(cfg.backends, discovered);
    KeepersExist(es, |es|);
    KeepersWeights(es, |es|);
    NewNamed(cfg.strategy, pool);
  }

  lemma {:induction false} KeepersExist(es: seq<Entry>, n: nat)
    requires n <= |es|
    ensures Keepers(es, n) == [] <==> forall i :: 0 <= i < n ==> es[i].url == ""
  {
    if n > 0 {
      KeepersExist(es, n - 1);
    }
  }

  /** One of the first `n` entries would be kept with a negative weight. */
  ghost predicate BadKeeper(es: seq<Entry>, n: nat)
    requires n <= |es|
  {
    exists i :: 0 <= i < n && Keeper(es, i) && es[i].weight < 0
  }

  lemma BadKeeperStep(es: seq<Entry>, n: nat)
    requires 0 < n <= |es|
    ensures BadKeeper(es, n) <==> BadKeeper(es, n - 1) || (Keeper(es, n - 1) && es[n - 1].weight < 0)
  {
    hide Keeper;
    if BadKeeper(es, n) {
      var i :| 0 <= i < n && Keeper(es, i) && es[i].weight < 0;
      assert i < n - 1 ==> BadKeeper(es, n - 1);
    }
  }

  lemma {:induction false} KeepersWeights(es: seq<Entry>, n: nat)
    requires n <= |es|
    ensures Weighted(Keepers(es, n)) <==> !BadKeeper(es, n)
  {
    hide Keeper;
    if n > 0 {
      hide Weighted, BadKeeper;
      KeepersWeights(es, n - 1);
      BadKeeperStep(es, n);
      AppendWeighted(Keepers(es, n - 1), es[n - 1]);
      if !Keeper(es, n - 1) {
        assert Keepers(es, n) == Keepers(es, n - 1);
      }
    }
  }

  lemma AppendWeighted(pool: seq<Entry>, e: Entry)
    ensures Weighted(pool + [e]) <==> Weighted(pool) && e.weight >= 0
  {
    assert forall i :: 0 <= i < |pool| ==> (pool + [e])[i] == pool[i];
    assert (pool + [e])[|pool|] == e;
  }

  /** The circuit `c` of `b` goes on where the one of the generation before it stood, or
      starts closed if there was none. */
  predicate TakenOver(live: Live, b: string, c: Circuit) {
    if live.Current? && b in live.gen.circuits then
      var before := live.gen.circuits[b];
      c.state == before.state && c.fails == before.fails && c.openAt == before.openAt
    else c.state == Closed && c.fails == 0
  }

  /** A rebuild either publishes a coherent generation made of the merged pool, in which
      configured entries come first and keep their weights and every circuit goes on from
      where it stood under the new limits, or, when it fails, leaves everything as it
      was. */
  lemma RebuildIsCoherent(live: Live, cfg: Config, discovered: seq<string>)
    ensures RebuildFails(cfg, discovered) ==> Rebuilt(live, cfg, discovered) == live
    ensures !RebuildFails(cfg, discovered) ==>
      var after, es := Rebuilt(live, cfg, discovered), Offered(cfg.backends, discovered);
      && after.Current? && Coherent(after.gen) && after.gen.backends == Urls(Keepers(es, |es|))
      && (cfg.strategy == "weighted_round_robin" ==>
            && after.gen.bal.WeightedBal? && after.gen.bal.counter == 0
            && Blocks(Keepers(es, |es|), after.gen.bal.slots))
      && forall b :: b in after.gen.circuits ==>
           && after.gen.circuits[b].threshold == cfg.threshold && after.gen.circuits[b].cooldown == cfg.cooldown
           && TakenOver(live, b, after.gen.circuits[b])
  {
    var pool := Pool(cfg.backends, discovered);
    PoolIsKeepers(cfg.backends, discovered);
    if pool != [] && NewBal(cfg.strategy, pool).Ok? {
      GenerationIsCoherent(pool, cfg, live);
      if cfg.strategy == "weighted_round_robin" {
        SlotsAreBlocks(pool);
      }
    }
  }

  lemma NewBalShape(strategy: string, bs: seq<Entry>)
    requires NewBal(strategy, bs).Ok?
    ensures var bal := NewBal(strategy, bs).value;
      && (bal.WeightedBal? ==> bal.slots != [])
      && (bal.LeastBal? ==> forall b :: b in bal.conns <==> b in Urls(bs))
  {
    if strategy == "weighted_round_robin" {
      assert bs[0].weight >= 0;
      assert Repeat(bs[0].url, Share(bs[0])) != [];
    }
  }

  // ---- the runtime ----

  method New(strategy: string, bs: seq<Entry>) returns (r: Result<Bal>)
    ensures r == NewBal(strategy, bs)
  {
    if strategy == "weighted_round_robin" {
      var slots := BuildSlots(bs);
      r := if slots.Err? then Err(slots.error) else Ok(WeightedBal(slots.value, 0));
      return;
    }
    if strategy !in ["round_robin", "least_connections", "random", "ip_hash"] {
      return Err(UnknownStrategy);
    }
    if |bs| == 0 {
      return Err(NoBackends);
    }
    var urls := Urls(bs);
    if strategy == "round_robin" {
      return Ok(RoundRobinBal(urls, 0));
    }
    if strategy == "least_connections" {
      return Ok(LeastBal(urls, ZeroCounts(urls)));
    }
    if strategy == "random" {
      return Ok(RandomBal(urls));
    }
    return Ok(IPHashBal(urls, 0));
  }

  /** The health records of the backends in `keep`, and no others. */
  function Pruned(health: map<string, bool>, keep: set<string>): map<string, bool> {
    map u | u in health && u in keep :: health[u]
  }

  lemma PrunedOneLess(health: map<string, bool>, keep: set<string>, u: string)
    requires u in health && u in keep
    ensures Pruned(health, keep - {u}) == Pruned(health, keep) - {u}
  {
  }

  class Runtime {
    var cur: Live
    var discovered: seq<string>
    var health: map<string, bool>   // what the probes last wrote about each backend
    var probing: seq<string>        // the backends with a probe loop running

    constructor ()
      ensures cur == NoGeneration && discovered == [] && health == map[] && probing == []
    {
      cur, discovered, health, probing := NoGeneration, [], map[], [];
    }

    /** pruneHealth: drops the records of backends that are gone. */
    method PruneHealth(keep: seq<string>)
      modifies `health
      ensures health == Pruned(old(health), set u | u in keep)
      ensures forall u :: u in health <==> u in old(health) && u in keep
      ensures forall u :: u in health ==> health[u] == old(health)[u]
    {
      var alive: set<string> := {};
      for i := 0 to |keep|
        invariant alive == set u | u in keep[..i]
      {
        alive := alive + {keep[i]};
        assert keep[..i + 1] == keep[..i] + [keep[i]];
      }
      assert keep[..|keep|] == keep;
      DropDead(alive);
    }

    method DropDead(alive: set<string>)
      modifies `health
      ensures health == Pruned(old(health), alive)
    {
      ghost var was := health;
      var todo := health.Keys;
      assert health == Pruned(was, alive + todo);
      while todo != {}
        invariant todo <= was.Keys && health == Pruned(was, alive + todo)
        decreases |todo|
      {
        var u :| u in todo;
        if u in alive {
          assert alive + (todo - {u}) == alive + todo;
        } else {
          health := health - {u};
          PrunedOneLess(was, alive + todo, u);
          assert alive + (todo - {u}) == (alive + todo) - {u};
        }
        todo := todo - {u};
      }
      assert alive + {} == alive;
    }

    /** rebuild: either publishes the generation made of the merged pool, keeps the health
        records of its backends only and restarts the probes on it, or, when it fails,
        changes nothing at all. */
    method Rebuild(cfg: Config)
      modifies `cur, `health, `probing
      ensures cur == Rebuilt(old(cur), cfg, discovered)
      ensures old(cur).Current? && Coherent(old(cur).gen) ==> cur.Current? && Coherent(cur.gen)
      ensures RebuildFails(cfg, discovered) ==> health == old(health) && probing == old(probing)
      ensures !RebuildFails(cfg, discovered) ==>
        && cur.Current? && Coherent(cur.gen)
        && health == Pruned(old(health), set u | u in cur.gen.backends)
        && probing == if cfg.probes then cur.gen.backends else []
    {
      hide Coherent, NewBal, Pool, CarriedBal, CarriedCircuits, Blocks, TakenOver;
      RebuildIsCoherent(cur, cfg, discovered);
      var entries := MergeEntries(cfg.backends, discovered);
      if |entries| == 0 {
        return;
      }
      var made := New(cfg.strategy, entries);
      if made.Err? {
        return;
      }
      var gen := Made(entries, made.value, cfg, cur);
      probing := [];
      cur := Current(gen);
      PruneHealth(gen.backends);
      if cfg.probes {
        probing := gen.backends;
      }
    }

    /** A list discovery has already reported changes nothing. */
    method OnDiscovery(urls: seq<string>, cfg: Config)
      modifies this
      ensures discovered == urls
      ensures cur == if urls == old(discovered) then old(cur) else Rebuilt(old(cur), cfg, urls)
      ensures urls == old(discovered) || RebuildFails(cfg, urls) ==>
        health == old(health) && probing == old(probing)
    {
      if urls == discovered {
        return;
      }
      discovered := urls;
      Rebuild(cfg);
    }
  }
}
