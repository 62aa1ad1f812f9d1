/** A pool of any two backends: what the proxy makes of it at its start, and what a pick
    of least_connections asks. */
module Pairs {
  import opened Breaker
  import opened HealthChecker
  import opened Balancer
  import opened Engine
  import opened Gateway

  predicate Names(u: string, v: string) {
    u != v && u != "" && v != ""
  }

  function PairEntries(u: string, v: string): seq<Entry> {
    [Entry(u, 1), Entry(v, 1)]
  }

  function PairCircuits(u: string, c: Circuit, v: string, d: Circuit): Circuits {
    map[u := c, v := d]
  }

  function PairCounts(u: string, m: int, v: string, n: int): map<string, int> {
    map[u := m, v := n]
  }

  lemma PairPool(u: string, v: string)
    requires Names(u, v)
    ensures Pool(PairEntries(u, v), []) == PairEntries(u, v)
    ensures Urls(PairEntries(u, v)) == [u, v]
  {
    var es := Offered(PairEntries(u, v), []);
    assert es == PairEntries(u, v);
    assert AdmitFirst(es, 0) == [] && AdmitFirst(es, 1) == [Entry(u, 1)];
    assert v !in Urls([Entry(u, 1)]);
  }

  lemma PairFresh(u: string, v: string, threshold: int, cooldown: int)
    requires Names(u, v)
    ensures FreshCircuits([u, v], threshold, cooldown) ==
            PairCircuits(u, NewCircuit(threshold, cooldown), v, NewCircuit(threshold, cooldown))
    ensures ZeroCounts([u, v]) == PairCounts(u, 0, v, 0)
  {
    assert [u, v][0] == u && [u, v][1] == v;
  }

  lemma FirstGeneration(cfg: Config, pool: seq<Entry>, bal: Bal)
    requires Pool(cfg.backends, []) == pool != [] && NewBal(cfg.strategy, pool) == Ok(bal)
    ensures Rebuilt(NoGeneration, cfg, []) ==
            Current(Generation(bal, FreshCircuits(Urls(pool), cfg.threshold, cfg.cooldown), Urls(pool)))
  {
  }

  lemma Starts(g: Gateway, cfg: Config, live: Live)
    requires Rebuilt(g.live, cfg, []) == live
    ensures Apply(g, Rebuild(cfg, [])) == g.(live := live)
  {
  }

  // ---- a pick ----

  lemma SurveyOne(u: string, cs: Circuits, up: set<string>, now: int)
    ensures AskAll([u], cs, up, now) ==
            Survey(if Answers(cs, up, u, now) then [u] else [], Queried(cs, up, u, now))
  {
    assert [u][..0] == [];
    assert AskAll([], cs, up, now) == Survey([], cs);
  }

  lemma SurveyPair(u: string, v: string, cs: Circuits, up: set<string>, now: int)
    ensures var one := AskAll([u], cs, up, now);
      AskAll([u, v], cs, up, now) ==
        Survey(one.healthy + (if Answers(one.circuits, up, v, now) then [v] else []),
               Queried(one.circuits, up, v, now))
  {
    assert [u, v][..1] == [u];
  }

  lemma PairSurvey(u: string, c: Circuit, v: string, d: Circuit, now: int)
    requires Names(u, v)
    ensures var all := AskAll([u, v], PairCircuits(u, c, v, d), {u, v}, now);
      && all.healthy == (if Admits(c, now) then [u] else []) + (if Admits(d, now) then [v] else [])
      && all.circuits == PairCircuits(u, Asked(c, now), v, Asked(d, now))
  {
    var cs := PairCircuits(u, c, v, d);
    SurveyOne(u, cs, {u, v}, now);
    SurveyPair(u, v, cs, {u, v}, now);
    assert Queried(cs, {u, v}, u, now) == PairCircuits(u, Asked(c, now), v, d);
  }

  lemma LeastOfOne(u: string, conns: map<string, int>)
    requires u in conns
    ensures LeastLoaded([u], conns) == Best(u, conns[u])
  {
    assert [u][..0] == [];
    assert LeastLoaded([], conns) == Best("", -1);
  }

  lemma LeastOfTwo(u: string, v: string, conns: map<string, int>)
    requires Names(u, v) && u in conns && v in conns && conns[u] == 0 && conns[v] == 0
    ensures LeastLoaded([u, v], conns) == Best(u, 0)
  {
    LeastOfOne(u, conns);
    assert [u, v][..1] == [u];
  }
}
