/** The connection counts of least_connections over whole runs of the proxy. */
module LeastConnectionsRuns {
  import opened Breaker
  import opened HealthChecker
  import opened Balancer
  import opened BalancerTheorems
  import opened Engine
  import opened Proxy
  import opened Gateway
  import opened GatewaySafety

  /** The requests that are talking to `b` right now. */
  ghost function Callers(g: Gateway, b: string): set<nat> {
    set id | id in g.requests && g.requests[id].phase == Calling(b)
  }

  /** Each count is the number of requests out on that backend. */
  ghost predicate CountsRight(g: Gateway) {
    g.live.Current? && g.live.gen.bal.LeastBal? ==>
      forall b :: b in g.live.gen.bal.conns ==> g.live.gen.bal.conns[b] == |Callers(g, b)|
  }

  /** One request moves to a new phase. */
  lemma CallersMove(g: Gateway, g': Gateway, id: nat, b: string)
    requires id in g'.requests && g'.requests == g.requests[id := g'.requests[id]]
    ensures Callers(g', b) ==
            (Callers(g, b) - {id}) + (if g'.requests[id].phase == Calling(b) then {id} else {})
    ensures id !in Callers(g, b) || g.requests[id].phase == Calling(b)
  {
  }

  lemma PickNextBal(gen: Generation, up: set<string>, hint: nat, now: int)
    ensures var p := PickNext(gen, up, hint, now);
      && (p.gen.bal.LeastBal? <==> gen.bal.LeastBal?)
      && (gen.bal.LeastBal? ==> p.gen.bal.conns == Bumped(gen.bal.conns, p.pick))
  {
  }

  lemma ChooseCountsAt(g: Gateway, g': Gateway, id: nat, pick: Pick, conns: map<string, int>, b: string)
    requires id in g.requests && g.requests[id].phase.Choosing?
    requires g'.requests == g.requests[id := OnPick(g.requests[id], pick)]
    requires b in conns && conns[b] == |Callers(g, b)|
    ensures Bumped(conns, pick)[b] == |Callers(g', b)|
  {
    CallersMove(g, g', id, b);
    assert Callers(g, b) - {id} == Callers(g, b);
  }

  lemma ChooseCounts(g: Gateway, st: Step)
    requires CountsRight(g) && st.Choose? && Enabled(g, st)
    ensures CountsRight(Apply(g, st))
  {
    var g' := Apply(g, st);
    if g.live.Current? {
      PickNextBal(g.live.gen, st.up, st.hint, g.now);
      if g.live.gen.bal.LeastBal? {
        var conns := g.live.gen.bal.conns;
        forall b | b in conns ensures g'.live.gen.bal.conns[b] == |Callers(g', b)| {
          ChooseCountsAt(g, g', st.id, PickFor(g, st), conns, b);
        }
      }
    }
  }

  lemma ReturnCounts(g: Gateway, st: Step)
    requires CountsRight(g) && st.Return? && Enabled(g, st)
    ensures CountsRight(Apply(g, st))
  {
    var g' := Apply(g, st);
    if g'.live.Current? && g'.live.gen.bal.LeastBal? {
      var bal, called := g.live.gen.bal, g.requests[st.id].phase.backend;
      forall b | b in bal.conns ensures ReleasedBal(bal, called).conns[b] == |Callers(g', b)| {
        ReturnCountsAt(g, g', st.id, called, bal, b);
      }
    }
  }

  lemma ReturnCountsAt(g: Gateway, g': Gateway, id: nat, called: string, bal: Bal, b: string)
    requires id in g.requests && g.requests[id].phase == Calling(called)
    requires id in g'.requests && g'.requests == g.requests[id := g'.requests[id]] && g'.requests[id].phase.Recording?
    requires bal.LeastBal? && b in bal.conns && bal.conns[b] == |Callers(g, b)|
    ensures ReleasedBal(bal, called).conns[b] == |Callers(g', b)|
  {
    CallersMove(g, g', id, b);
    if called != b {
      assert Callers(g, b) - {id} == Callers(g, b);
    } else {
      assert id in Callers(g, b);
    }
  }

  lemma SameCallers(g: Gateway, g': Gateway)
    requires CountsRight(g) && g'.live.Current? && g.live.Current? && g'.live.gen.bal == g.live.gen.bal
    requires forall b :: Callers(g', b) == Callers(g, b)
    ensures CountsRight(g')
  {
  }

  lemma RecordCounts(g: Gateway, st: Step)
    requires CountsRight(g) && (st.Record? || st.Arrive?) && Enabled(g, st)
    ensures CountsRight(Apply(g, st))
  {
    var g' := Apply(g, st);
    forall b ensures Callers(g', b) == Callers(g, b) {
      CallersMove(g, g', st.id, b);
      assert Callers(g, b) - {st.id} == Callers(g, b);
    }
    if g'.live.Current? {
      SameCallers(g, g');
    }
  }

  /** Every backend of the new pool is idle, or its count is carried over. */
  ghost predicate NothingForgotten(g: Gateway, cfg: Config, discovered: seq<string>) {
    forall b :: b in Urls(Pool(cfg.backends, discovered)) ==>
      Callers(g, b) == {} || (g.live.Current? && g.live.gen.bal.LeastBal? && b in g.live.gen.bal.conns)
  }

  /** When a reload into least_connections keeps the counts right: exactly when every
      backend of the new pool that has requests out on it had a count to carry over. A
      switch from another strategy, or a backend dropped and brought back, under load
      breaks them. */
  lemma RebuildCountsExactly(g: Gateway, st: Step)
    requires CountsRight(g) && st.Rebuild? && !RebuildFails(st.cfg, st.discovered)
    requires st.cfg.strategy == "least_connections"
    ensures CountsRight(Apply(g, st)) <==> NothingForgotten(g, st.cfg, st.discovered)
  {
    var g', us := Apply(g, st), Urls(Pool(st.cfg.backends, st.discovered));
    forall b ensures Callers(g', b) == Callers(g, b) {}
    var conns := g'.live.gen.bal.conns;
    forall b | b in us
      ensures b in conns
      ensures conns[b] == |Callers(g, b)| <==>
              Callers(g, b) == {} || (g.live.Current? && g.live.gen.bal.LeastBal? && b in g.live.gen.bal.conns)
    {
    }
    assert forall b :: b in conns <==> b in us;
  }

  /** Rebuilds along the run forget no request. */
  ghost predicate NeverForgets(g: Gateway, steps: seq<Step>)
    decreases |steps|
  {
    steps == [] ||
    (&& (steps[0].Rebuild? && !RebuildFails(steps[0].cfg, steps[0].discovered)
         && steps[0].cfg.strategy == "least_connections" ==>
           NothingForgotten(g, steps[0].cfg, steps[0].discovered))
     && NeverForgets(Apply(g, steps[0]), steps[1..]))
  }

  lemma RebuildElsewhere(g: Gateway, st: Step)
    requires CountsRight(g) && st.Rebuild?
    requires RebuildFails(st.cfg, st.discovered) || st.cfg.strategy != "least_connections"
    ensures CountsRight(Apply(g, st))
  {
    var g' := Apply(g, st);
    forall b ensures Callers(g', b) == Callers(g, b) {}
  }

  lemma StepCounts(g: Gateway, st: Step)
    requires CountsRight(g)
    requires st.Rebuild? && !RebuildFails(st.cfg, st.discovered) && st.cfg.strategy == "least_connections" ==>
               NothingForgotten(g, st.cfg, st.discovered)
    ensures CountsRight(Apply(g, st))
  {
    if Enabled(g, st) {
      match st
      case Choose(_, _, _) => ChooseCounts(g, st);
      case Return(_, _) => ReturnCounts(g, st);
      case Record(_) => RecordCounts(g, st);
      case Arrive(_, _) => RecordCounts(g, st);
      case Rebuild(cfg, discovered) =>
        if RebuildFails(cfg, discovered) || cfg.strategy != "least_connections" {
          RebuildElsewhere(g, st);
        } else {
          RebuildCountsExactly(g, st);
        }
      case _ =>
        forall b ensures Callers(Apply(g, st), b) == Callers(g, b) {}
    }
  }

  /** Conservation: over any run whose rebuilds forget no request, each count is the
      number of requests out on the backend; so none is ever negative, and all are zero
      when no request is calling. */
  lemma {:induction false} CountsConserved(g: Gateway, steps: seq<Step>)
    requires CountsRight(g) && NeverForgets(g, steps)
    ensures CountsRight(Run(g, steps))
    decreases |steps|
  {
    if steps != [] {
      StepCounts(g, steps[0]);
      CountsConserved(Apply(g, steps[0]), steps[1..]);
    }
  }

  lemma IdleCountsAreZero(g: Gateway, steps: seq<Step>)
    requires Initial(g) && NeverForgets(g, steps)
    ensures var end := Run(g, steps);
      end.live.Current? && end.live.gen.bal.LeastBal? ==>
        && (forall b :: b in end.live.gen.bal.conns ==> end.live.gen.bal.conns[b] >= 0)
        && ((forall id :: id in end.requests ==> end.requests[id].phase.Finished?) ==>
              forall b :: b in end.live.gen.bal.conns ==> end.live.gen.bal.conns[b] == 0)
  {
    CountsConserved(g, steps);
    var end := Run(g, steps);
    if forall id :: id in end.requests ==> end.requests[id].phase.Finished? {
      forall b ensures Callers(end, b) == {} {}
    }
  }

  lemma FreshCount(g: Gateway, rebuild: Step, b: string)
    requires g.live.Current? && !g.live.gen.bal.LeastBal?
    requires rebuild.Rebuild? && !RebuildFails(rebuild.cfg, rebuild.discovered)
    requires rebuild.cfg.strategy == "least_connections"
    requires b in Urls(Pool(rebuild.cfg.backends, rebuild.discovered))
    ensures var mid := Apply(g, rebuild);
      && mid.requests == g.requests && mid.live.Current? && mid.live.gen.bal.LeastBal?
      && b in mid.live.gen.bal.conns && mid.live.gen.bal.conns[b] == 0
  {
  }

  /** Reloading into least_connections from another strategy with a request in flight
      breaks the count for good: the release drives it to -1. */
  lemma ReloadUnderLoad(g: Gateway, rebuild: Step, mid: Gateway, back: Step, b: string)
    requires g.live.Current? && !g.live.gen.bal.LeastBal? && mid == Apply(g, rebuild)
    requires rebuild.Rebuild? && !RebuildFails(rebuild.cfg, rebuild.discovered)
    requires rebuild.cfg.strategy == "least_connections"
    requires b in Urls(Pool(rebuild.cfg.backends, rebuild.discovered))
    requires back.Return? && back.id in g.requests && g.requests[back.id].phase == Calling(b)
    ensures var end := Apply(mid, back);
      end.live.Current? && end.live.gen.bal.LeastBal? && b in end.live.gen.bal.conns
      && end.live.gen.bal.conns[b] == -1
  {
    hide Rebuilt, RebuildFails, Pool, PickNext, OnReturn;
    FreshCount(g, rebuild, b);
  }

  // ---- what Next returns ----

  lemma {:induction false} SurveyInOrder(urls: seq<string>, cs: Circuits, up: set<string>, now: int)
    requires forall i, j :: 0 <= i < j < |urls| ==> urls[i] != urls[j]
    ensures var healthy := AskAll(urls, cs, up, now).healthy;
      forall i, j :: 0 <= i < j < |healthy| ==> healthy[i] != healthy[j]
    decreases |urls|
  {
    if urls != [] {
      var n := |urls| - 1;
      SurveyInOrder(urls[..n], cs, up, now);
      AskAllAt(urls[..n], cs, up, now, urls[n]);
    }
  }

  /** In every run that forgets no request, least_connections picks the first backend
      with the fewest requests out on it among exactly those that answered, and reports
      no healthy backend only if nobody did. */
  lemma LeastConnectionsPicksLeast(g0: Gateway, steps: seq<Step>, g: Gateway, up: set<string>, hint: nat, all: Survey)
    requires Initial(g0) && NeverForgets(g0, steps) && g == Run(g0, steps)
    requires g.live.Current? && g.live.gen.bal.LeastBal?
    requires all == AskAll(g.live.gen.backends, g.live.gen.circuits, up, g.now)
    ensures forall b :: b in all.healthy <==>
              b in g.live.gen.backends && Answers(g.live.gen.circuits, up, b, g.now)
    ensures var pick := PickNext(g.live.gen, up, hint, g.now).pick;
      if all.healthy == [] then pick == NoHealthyBackend
      else exists i :: 0 <= i < |all.healthy| && pick == Picked(all.healthy[i])
             && FirstMinimum(all.healthy, map b | b in g.live.gen.backends :: |Callers(g, b)|, i)
  {
    RunOrderly(g0, steps);
    CountsConserved(g0, steps);
    var gen := g.live.gen;
    forall b ensures b in all.healthy <==> b in gen.backends && Answers(gen.circuits, up, b, g.now) {
      AskAllAt(gen.backends, gen.circuits, up, g.now, b);
    }
    if all.healthy != [] {
      SurveyInOrder(gen.backends, gen.circuits, up, g.now);
      assert gen.bal.conns == map b | b in gen.backends :: |Callers(g, b)|;
      LeastOfHealthy(gen, all.healthy);
    }
  }

  lemma LeastOfHealthy(gen: Generation, healthy: seq<string>)
    requires Coherent(gen) && gen.bal.LeastBal? && healthy != []
    requires forall i, j :: 0 <= i < j < |healthy| ==> healthy[i] != healthy[j]
    requires forall i :: 0 <= i < |healthy| ==> healthy[i] in gen.backends
    requires forall b :: b in gen.bal.conns ==> gen.bal.conns[b] >= 0
    ensures exists i :: 0 <= i < |healthy| && Chosen(LeastLoaded(healthy, gen.bal.conns)) == Picked(healthy[i])
                        && FirstMinimum(healthy, gen.bal.conns, i)
  {
    LeastLoadedExactly(healthy, gen.bal.conns);
    assert SentinelSafe(healthy, gen.bal.conns);
    var i :| 0 <= i < |healthy| && FirstMinimum(healthy, gen.bal.conns, i)
             && LeastLoaded(healthy, gen.bal.conns).url == healthy[i];
    assert healthy[i] != "";
  }
}
