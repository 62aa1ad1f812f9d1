/** Who counts as a live peer, told from the datagrams that arrived and when, and how the
    failure count of a finding grows. */
module Liveness {
  import opened Cluster
  import opened Gossip
  import opened GossipSafety

  /** The step brings `q` a datagram that names `p` as its sender, on time or late. */
  predicate Hears(w: World, st: Step, q: string, p: string) {
    st.Deliver? && st.to == q && Enabled(w, st) && st.msg.node == p
  }

  /** Some step of the run did, and at most `window` has passed from then to the end. */
  predicate HeardWithin(w: World, steps: seq<Step>, q: string, p: string, window: int)
    decreases |steps|
  {
    steps != [] &&
    ((Hears(w, steps[0], q, p) && Waits(steps) <= window) || HeardWithin(Apply(w, steps[0]), steps[1..], q, p, window))
  }

  /** `p` was heard at `q` within `window` of `until`, by the replica's own record. */
  predicate Recorded(r: Replica, p: string, window: int, until: int) {
    p in r.seen && until - r.seen[p] <= window
  }

  lemma HearStep(w: World, st: Step, q: string, p: string)
    requires q in w.nodes && w.nodes[q].id == q && p != "" && p != q
    ensures var w' := Apply(w, st);
      && q in w'.nodes && w'.nodes[q].id == q && w'.nodes[q].staleAfter == w.nodes[q].staleAfter
      && w'.now == w.now + (if st.Tick? then st.elapsed else 0)
      && (if Hears(w, st, q, p) then p in w'.nodes[q].seen && w'.nodes[q].seen[p] == w.now
          else (p in w'.nodes[q].seen <==> p in w.nodes[q].seen)
               && (p in w.nodes[q].seen ==> w'.nodes[q].seen[p] == w.nodes[q].seen[p]))
  {
    hide Absorb, Forget;
    if st.ExpireRemote? && Enabled(w, st) {
      ExpireAt(w.nodes[st.node], w.now, "");
    }
    if st.Deliver? && Enabled(w, st) && Accepts(w.nodes[st.to], st.msg) {
      MergeAt(w.nodes[st.to], st.msg, w.now, "");
    }
  }

  lemma {:induction false} HeardOverRun(w: World, steps: seq<Step>, q: string, p: string, window: int)
    requires q in w.nodes && w.nodes[q].id == q && p != "" && p != q
    requires p in w.nodes[q].seen ==> w.nodes[q].seen[p] <= w.now
    ensures var end := Run(w, steps);
      && q in end.nodes && end.nodes[q].staleAfter == w.nodes[q].staleAfter
      && (Recorded(end.nodes[q], p, window, end.now) <==>
          HeardWithin(w, steps, q, p, window) || Recorded(w.nodes[q], p, window, w.now + Waits(steps)))
    decreases |steps|
  {
    if steps != [] {
      HearStep(w, steps[0], q, p);
      HeardOverRun(Apply(w, steps[0]), steps[1..], q, p, window);
    }
  }

  /** The node itself and the empty name are never recorded. */
  ghost predicate OnlyPeers(r: Replica) {
    r.id !in r.seen && "" !in r.seen
  }

  lemma {:induction false} OnlyPeersRecorded(w: World, steps: seq<Step>, q: string)
    requires q in w.nodes && OnlyPeers(w.nodes[q])
    ensures q in Run(w, steps).nodes && OnlyPeers(Run(w, steps).nodes[q])
    ensures Run(w, steps).nodes[q].id == w.nodes[q].id
    decreases |steps|
  {
    if steps != [] {
      OnlyPeersStep(w, steps[0], q);
      OnlyPeersRecorded(Apply(w, steps[0]), steps[1..], q);
    }
  }

  lemma OnlyPeersStep(w: World, st: Step, q: string)
    requires q in w.nodes && OnlyPeers(w.nodes[q])
    ensures q in Apply(w, st).nodes && OnlyPeers(Apply(w, st).nodes[q])
    ensures Apply(w, st).nodes[q].id == w.nodes[q].id
  {
    hide Absorb, Forget;
    if st.ExpireRemote? && Enabled(w, st) {
      ExpireAt(w.nodes[st.node], w.now, "");
    }
    if st.Deliver? && Enabled(w, st) && Accepts(w.nodes[st.to], st.msg) {
      MergeAt(w.nodes[st.to], st.msg, w.now, "");
    }
  }

  /** Exactly who is counted, in every run from the start: `p` is counted at `q` if and
      only if `p` is a named peer and a datagram of its arrived at `q`, in time or late,
      at most the expiry window ago. */
  lemma CountedExactly(w0: World, steps: seq<Step>, q: string, p: string)
    requires Initial(w0) && q in w0.nodes
    ensures var end := Run(w0, steps);
      && q in end.nodes
      && (p in LivePeers(end.nodes[q], end.now) <==>
          p != "" && p != q && HeardWithin(w0, steps, q, p, w0.nodes[q].staleAfter))
  {
    OnlyPeersRecorded(w0, steps, q);
    if p != "" && p != q {
      HeardOverRun(w0, steps, q, p, w0.nodes[q].staleAfter);
    }
  }

  /** No datagram at all arrives at `q`. */
  predicate NothingArrives(w: World, steps: seq<Step>, q: string)
    decreases |steps|
  {
    steps == [] ||
    (&& !(steps[0].Deliver? && steps[0].to == q && Enabled(w, steps[0]))
     && NothingArrives(Apply(w, steps[0]), steps[1..], q))
  }

  lemma {:induction false} SilenceIsNotHeard(w: World, steps: seq<Step>, q: string, p: string, window: int)
    requires NothingArrives(w, steps, q)
    ensures !HeardWithin(w, steps, q, p, window)
    decreases |steps|
  {
    if steps != [] {
      SilenceIsNotHeard(Apply(w, steps[0]), steps[1..], q, p, window);
    }
  }

  /** After more than the window of silence nobody is counted. */
  lemma SilenceEmptiesTheCount(w0: World, history: seq<Step>, silence: seq<Step>, q: string)
    requires Initial(w0) && q in Run(w0, history).nodes
    requires NothingArrives(Run(w0, history), silence, q)
    requires Waits(silence) > Run(w0, history).nodes[q].staleAfter
    ensures var end := Run(Run(w0, history), silence);
      q in end.nodes && LivePeers(end.nodes[q], end.now) == {}
  {
    var w := Run(w0, history);
    ReachableSound(w0, history);
    SameNodes(w0, history);
    OnlyPeersRecorded(w0, history, q);
    OnlyPeersRecorded(w, silence, q);
    var end := Run(w, silence);
    forall p ensures p !in LivePeers(end.nodes[q], end.now) {
      if p != "" && p != q {
        HeardOverRun(w, silence, q, p, w.nodes[q].staleAfter);
        SilenceIsNotHeard(w, silence, q, p, w.nodes[q].staleAfter);
      }
    }
  }

  lemma {:induction false} SameNodes(w: World, steps: seq<Step>)
    ensures Run(w, steps).nodes.Keys == w.nodes.Keys
    decreases |steps|
  {
    if steps != [] {
      assert Apply(w, steps[0]).nodes.Keys == w.nodes.Keys;
      SameNodes(Apply(w, steps[0]), steps[1..]);
    }
  }

  // ---- the failure count ----

  /** The failing observations of `b` at `q` since the last healthy one, on top of `n`. */
  function FailuresSince(steps: seq<Step>, q: string, b: string, n: int): int
    decreases |steps|
  {
    if steps == [] then n
    else if steps[0].SetHealth? && steps[0].node == q && steps[0].backend == b then
      FailuresSince(steps[1..], q, b, if steps[0].healthy then 0 else n + 1)
    else FailuresSince(steps[1..], q, b, n)
  }

  /** No peer's finding about `b` is taken over at `q`. */
  predicate NothingAdopted(w: World, steps: seq<Step>, q: string, b: string)
    decreases |steps|
  {
    steps == [] ||
    (&& (steps[0].Deliver? && steps[0].to == q && Enabled(w, steps[0]) && Accepts(w.nodes[q], steps[0].msg) ==>
           !Adopts(w.nodes[q], steps[0].msg, b))
     && NothingAdopted(Apply(w, steps[0]), steps[1..], q, b))
  }

  lemma HeldIsOwn(w: World, q: string, b: string, f: Finding)
    requires HoldsOwn(w, q, b, f)
    ensures q in w.nodes && b in w.nodes[q].own && w.nodes[q].own[b] == f
  {
  }

  lemma Counted(w: World, st: Step, q: string, b: string, f: Finding) returns (f': Finding)
    requires HoldsOwn(w, q, b, f) && st.SetHealth? && st.node == q && st.backend == b
    ensures HoldsOwn(Apply(w, st), q, b, f') && f'.failures == if st.healthy then 0 else f.failures + 1
  {
    f' := Observation(w.nodes[q], b, st.healthy);
  }

  /** As long as no peer's finding takes its place, the failure count of an own finding is
      the number of failing observations since the last healthy one. */
  lemma {:induction false} FailuresAreCounted(w: World, steps: seq<Step>, q: string, b: string, f: Finding)
    requires Sound(w) && HoldsOwn(w, q, b, f) && NothingAdopted(w, steps, q, b)
    ensures var end := Run(w, steps);
      && q in end.nodes && b in end.nodes[q].own
      && HoldsOwn(end, q, b, end.nodes[q].own[b])
      && end.nodes[q].own[b].failures == FailuresSince(steps, q, b, f.failures)
    decreases |steps|
  {
    hide Sound, HoldsOwn, Adopts, Accepts, Enabled, Apply;
    if steps == [] {
      HeldIsOwn(w, q, b, f);
    } else {
      var st, w1 := steps[0], Apply(w, steps[0]);
      StepSound(w, st);
      if st.SetHealth? && st.node == q && st.backend == b {
        var f' := Counted(w, st, q, b, f);
        FailuresAreCounted(w1, steps[1..], q, b, f');
      } else {
        OwnStep(w, st, q, b, f);
        FailuresAreCounted(w1, steps[1..], q, b, f);
      }
    }
  }

  /** The first observation of a backend the node knows nothing about counts from zero. */
  lemma FirstCount(w: World, q: string, b: string, healthy: bool)
    requires q in w.nodes && b !in w.nodes[q].health
    ensures var w' := Apply(w, SetHealth(q, b, healthy));
            var f := Finding(healthy, if healthy then 0 else 1, w.nodes[q].term + 1);
      HoldsOwn(w', q, b, f)
  {
  }
}
