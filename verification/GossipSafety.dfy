/** What holds in every run of the gossip cluster, whatever the network does. */
module GossipSafety {
  import opened Cluster
  import opened Gossip

  /** `f` is something `p` itself found out about `b`, no newer than what `p` now
      holds as its own, and identical to it when the terms agree. */
  ghost predicate FirstHand(w: World, p: string, b: string, f: Finding) {
    && Made(p, b, f) in w.log
    && p in w.nodes && b in w.nodes[p].own
    && f.term <= w.nodes[p].own[b].term
    && (f.term == w.nodes[p].own[b].term ==> f == w.nodes[p].own[b])
  }

  /** Nothing is relayed: an entry held under origin `p`, and anything a datagram
      from `p` carries, is a finding `p` made with its own SetHealth. */
  lemma NoRelay(w0: World, steps: seq<Step>)
    requires Initial(w0)
    ensures var w := Run(w0, steps);
      forall q, b :: q in w.nodes && b in w.nodes[q].remoteAt ==>
        && b in w.nodes[q].health && OriginOf(w.nodes[q], b) != q
        && FirstHand(w, OriginOf(w.nodes[q], b), b, w.nodes[q].health[b])
    ensures var w := Run(w0, steps);
      forall m, b :: m in w.net && b in m.health ==> FirstHand(w, m.node, b, m.health[b])
  {
    var w := Run(w0, steps);
    ReachableSound(w0, steps);
    forall q, b | q in w.nodes && b in w.nodes[q].remoteAt
      ensures b in w.nodes[q].health && OriginOf(w.nodes[q], b) != q
      ensures FirstHand(w, OriginOf(w.nodes[q], b), b, w.nodes[q].health[b])
    {
      var r := w.nodes[q];
      assert EntryShape(r, b);
      assert MadeBy(w, OriginOf(r, b), b, r.health[b]);
      LoggedTerm(w, Made(OriginOf(r, b), b, r.health[b]));
    }
    forall m, b | m in w.net && b in m.health
      ensures FirstHand(w, m.node, b, m.health[b])
    {
      assert MessageSound(w, m);
      assert MadeBy(w, m.node, b, m.health[b]);
      LoggedTerm(w, Made(m.node, b, m.health[b]));
    }
  }

  /** Two copies of findings by one author under one term are the same finding,
      wherever in the cluster the two copies sit. */
  lemma TermIdentifiesFinding(w0: World, steps: seq<Step>, q: string, q': string, b: string, b': string)
    requires Initial(w0)
    requires var w := Run(w0, steps);
      && q in w.nodes && b in w.nodes[q].remoteAt && b in w.nodes[q].health
      && q' in w.nodes && b' in w.nodes[q'].remoteAt && b' in w.nodes[q'].health
      && OriginOf(w.nodes[q], b) == OriginOf(w.nodes[q'], b')
      && w.nodes[q].health[b].term == w.nodes[q'].health[b'].term
    ensures var w := Run(w0, steps);
      b == b' && w.nodes[q].health[b] == w.nodes[q'].health[b']
  {
    var w := Run(w0, steps);
    ReachableSound(w0, steps);
    var p := OriginOf(w.nodes[q], b);
    assert MadeBy(w, p, b, w.nodes[q].health[b]) && MadeBy(w, p, b', w.nodes[q'].health[b']);
    assert Made(p, b, w.nodes[q].health[b]) == Made(p, b', w.nodes[q'].health[b']);
  }

  /** No entry is newer than its holder's term, so a local observation outranks
      everything the node holds, and GetHealth reports it at once. */
  lemma LocalObservationOutranks(w0: World, steps: seq<Step>, q: string, b: string, healthy: bool, fallback: bool)
    requires Initial(w0) && q in Run(w0, steps).nodes
    ensures var w := Run(w0, steps);
            var r, s := w.nodes[q], Apply(w, SetHealth(q, b, healthy)).nodes[q];
      && (forall k :: k in r.health ==> r.health[k].term < s.health[b].term)
      && (forall k :: k in r.own ==> r.own[k].term < s.health[b].term)
      && forall later :: Verdict(s, b, fallback, later) == healthy
  {
    ReachableSound(w0, steps);
    ObservationOutranks(Run(w0, steps).nodes[q], b, healthy);
  }

  lemma ObservationOutranks(r: Replica, b: string, healthy: bool)
    requires Shaped(r)
    ensures var s := Observe(r, b, healthy);
      && (forall k :: k in r.health ==> r.health[k].term < s.health[b].term)
      && (forall k :: k in r.own ==> r.own[k].term < s.health[b].term)
  {
    forall k | k in r.health || k in r.own
      ensures k in r.health ==> r.health[k].term <= r.term
      ensures k in r.own ==> r.own[k].term <= r.term
    {
      assert EntryShape(r, k);
    }
  }

  /** The step neither observes `b` at `q` again nor brings `q` a newer finding about it. */
  predicate LeavesAlone(w: World, st: Step, q: string, b: string) {
    && !(st.SetHealth? && st.node == q && st.backend == b)
    && (st.Deliver? && st.to == q && Enabled(w, st) && Accepts(w.nodes[q], st.msg) ==> !Adopts(w.nodes[q], st.msg, b))
  }

  predicate LeftAlone(w: World, steps: seq<Step>, q: string, b: string)
    decreases |steps|
  {
    steps == [] || (LeavesAlone(w, steps[0], q, b) && LeftAlone(Apply(w, steps[0]), steps[1..], q, b))
  }

  /** `q` holds `f` about `b` as its own finding. */
  ghost predicate HoldsOwn(w: World, q: string, b: string, f: Finding) {
    && q in w.nodes && b in w.nodes[q].own && w.nodes[q].own[b] == f
    && b in w.nodes[q].health && w.nodes[q].health[b] == f && b !in w.nodes[q].remoteAt
  }

  lemma OwnStep(w: World, st: Step, q: string, b: string, f: Finding)
    requires Sound(w) && HoldsOwn(w, q, b, f) && LeavesAlone(w, st, q, b)
    ensures HoldsOwn(Apply(w, st), q, b, f)
  {
    hide Absorb, Forget, Sound;
    if Enabled(w, st) {
      match st
      case Deliver(m, to) =>
        if to == q && Accepts(w.nodes[q], m) {
          SenderNamed(w, m);
          SoundShape(w, q, b);
          MergeAt(w.nodes[q], m, w.now, b);
        }
      case ExpireRemote(p) => ExpireAt(w.nodes[p], w.now, b);
      case _ =>
    }
  }

  lemma {:induction false} OwnStays(w: World, steps: seq<Step>, q: string, b: string, f: Finding)
    requires Sound(w) && HoldsOwn(w, q, b, f) && LeftAlone(w, steps, q, b)
    ensures HoldsOwn(Run(w, steps), q, b, f)
    decreases |steps|
  {
    if steps != [] {
      OwnStep(w, steps[0], q, b, f);
      StepSound(w, steps[0]);
      OwnStays(Apply(w, steps[0]), steps[1..], q, b, f);
    }
  }

  /** A local observation stands, and GetHealth reports it, through every later step until
      the backend is observed again or a newer finding about it is accepted: it never
      expires, and no replay or older gossip moves it. */
  lemma ObservationStands(w0: World, steps: seq<Step>, q: string, b: string, healthy: bool, later: seq<Step>)
    requires Initial(w0) && q in Run(w0, steps).nodes
    requires LeftAlone(Apply(Run(w0, steps), SetHealth(q, b, healthy)), later, q, b)
    ensures var w := Apply(Run(w0, steps), SetHealth(q, b, healthy));
            var end := Run(w, later);
      && q in end.nodes && b in end.nodes[q].health && end.nodes[q].health[b] == w.nodes[q].own[b]
      && forall fallback :: Verdict(end.nodes[q], b, fallback, end.now) == healthy
  {
    var before := Run(w0, steps);
    var w := Apply(before, SetHealth(q, b, healthy));
    ReachableSound(w0, steps);
    StepSound(before, SetHealth(q, b, healthy));
    OwnStays(w, later, q, b, w.nodes[q].own[b]);
  }

  // ---- replays ----

  lemma StepTerm(w: World, st: Step, q: string)
    requires q in w.nodes
    ensures q in Apply(w, st).nodes && w.nodes[q].term <= Apply(w, st).nodes[q].term
  {
  }

  lemma {:induction false} RunTerm(w: World, steps: seq<Step>, q: string)
    requires q in w.nodes
    ensures q in Run(w, steps).nodes && w.nodes[q].term <= Run(w, steps).nodes[q].term
    decreases |steps|
  {
    if steps != [] {
      StepTerm(w, steps[0], q);
      RunTerm(Apply(w, steps[0]), steps[1..], q);
    }
  }

  /** Node `q` raises its term itself somewhere in `steps`. */
  predicate Increments(steps: seq<Step>, q: string) {
    exists i :: 0 <= i < |steps| &&
      ((steps[i].SendGossip? && steps[i].node == q) || (steps[i].SetHealth? && steps[i].node == q))
  }

  lemma {:induction false} IncrementRaises(w: World, steps: seq<Step>, q: string)
    requires q in w.nodes && Increments(steps, q)
    ensures q in Run(w, steps).nodes && w.nodes[q].term < Run(w, steps).nodes[q].term
    decreases |steps|
  {
    var st, w1 := steps[0], Apply(w, steps[0]);
    if (st.SendGossip? || st.SetHealth?) && st.node == q {
      RunTerm(w1, steps[1..], q);
    } else {
      var i :| 0 <= i < |steps| && (steps[i].SendGossip? || steps[i].SetHealth?) && steps[i].node == q;
      assert steps[1..][i - 1] == steps[i];
      StepTerm(w, st, q);
      IncrementRaises(w1, steps[1..], q);
    }
  }

  /** A datagram once sent can arrive again at any time, and a node keeps its name. */
  lemma {:induction false} RunKeepsNet(w: World, steps: seq<Step>, q: string)
    requires q in w.nodes
    ensures w.net <= Run(w, steps).net
    ensures q in Run(w, steps).nodes && Run(w, steps).nodes[q].id == w.nodes[q].id
    decreases |steps|
  {
    if steps != [] {
      RunKeepsNet(Apply(w, steps[0]), steps[1..], q);
    }
  }

  /** A datagram that was delivered once can never change a finding again after the
      node's next own increment, however many other steps come between: a replay
      cannot revive a finding that has expired. Only the liveness mark moves. */
  lemma ReplayRejected(w: World, m: Message, q: string, between: seq<Step>)
    requires m in w.net && q in w.nodes && m.node != w.nodes[q].id
    requires Increments(between, q)
    ensures var w1 := Apply(w, Deliver(m, q));
            var w2 := Run(w1, between);
      && q in w2.nodes && Enabled(w2, Deliver(m, q))
      && Apply(w2, Deliver(m, q)).nodes[q] == Hear(w2.nodes[q], m.node, w2.now)
  {
    var w1 := Apply(w, Deliver(m, q));
    RunKeepsNet(w1, between, q);
    IncrementRaises(w1, between, q);
    assert m.term <= w1.nodes[q].term;
  }

  // ---- partitions ----

  /** No delivery to `q` in this run gets past the sender check and the term gate. */
  predicate NothingAccepted(w: World, steps: seq<Step>, q: string)
    decreases |steps|
  {
    steps == [] ||
    (&& (steps[0].Deliver? && steps[0].to == q && Enabled(w, steps[0]) ==>
           !Accepts(w.nodes[q], steps[0].msg))
     && NothingAccepted(Apply(w, steps[0]), steps[1..], q))
  }

  /** Peer stamps at `q` are no later than `since`. */
  ghost predicate StampedBy(w: World, q: string, since: int) {
    forall b :: q in w.nodes && b in w.nodes[q].remoteAt ==> w.nodes[q].remoteAt[b] <= since
  }

  lemma {:induction false} StampsStandStill(w: World, steps: seq<Step>, q: string, since: int)
    requires q in w.nodes && StampedBy(w, q, since) && NothingAccepted(w, steps, q)
    ensures q in Run(w, steps).nodes && StampedBy(Run(w, steps), q, since)
    ensures Run(w, steps).nodes[q].staleAfter == w.nodes[q].staleAfter
    decreases |steps|
  {
    if steps != [] {
      StampsStandStill(Apply(w, steps[0]), steps[1..], q, since);
    }
  }

  /** A partitioned node falls back to its own view: when nothing has been accepted
      for longer than the expiry window, one expiry leaves exactly the node's own
      findings, whatever it observed itself in the meantime. */
  lemma PartitionCollapse(w0: World, history: seq<Step>, silence: seq<Step>, q: string)
    requires Initial(w0) && q in Run(w0, history).nodes
    requires NothingAccepted(Run(w0, history), silence, q)
    requires var w := Run(w0, history);
      Run(w, silence).now - w.now > w.nodes[q].staleAfter
    ensures var w := Run(Run(w0, history), silence);
      q in w.nodes && var r := Apply(w, ExpireRemote(q)).nodes[q];
      r.health == w.nodes[q].own && r.own == w.nodes[q].own && r.remoteAt == map[]
  {
    var w := Run(w0, history);
    ReachableSound(w0, history);
    StampedSoFar(w, q);
    StampsStandStill(w, silence, q, w.now);
    RunSound(w, silence);
    CollapseToOwn(Run(w, silence).nodes[q], Run(w, silence).now);
  }

  lemma StampedSoFar(w: World, q: string)
    requires Sound(w) && q in w.nodes
    ensures StampedBy(w, q, w.now)
  {
    forall b | b in w.nodes[q].remoteAt ensures w.nodes[q].remoteAt[b] <= w.now {
      assert EntryShape(w.nodes[q], b);
    }
  }

  lemma CollapseToOwn(r: Replica, now: int)
    requires Shaped(r)
    requires forall b :: b in r.remoteAt ==> Stale(r, b, now)
    ensures Expire(r, now).health == r.own && Expire(r, now).remoteAt == map[]
  {
    var s := Expire(r, now);
    forall b
      ensures b !in s.remoteAt
      ensures b in s.health <==> b in r.own
      ensures b in r.own && b in s.health ==> s.health[b] == r.own[b]
    {
      ExpireAt(r, now, b);
      assert EntryShape(r, b);
    }
    assert s.remoteAt == map[];
  }

  // ---- who influences routing ----

  /** A peer that is out of the live count influences no routing: whenever GetHealth
      answers anything but the caller's fallback, the answer is the node's own
      finding or one made by a peer counted as live at that very instant. */
  lemma InfluenceIsCounted(w0: World, steps: seq<Step>, q: string, b: string, fallback: bool)
    requires Initial(w0) && q in Run(w0, steps).nodes
    requires var w := Run(w0, steps);
      Verdict(w.nodes[q], b, fallback, w.now) != fallback
    ensures var w := Run(w0, steps);
            var r := w.nodes[q];
      && b in r.health && r.health[b].healthy == !fallback
      && ((b in r.own && r.health[b] == r.own[b])
          || (OriginOf(r, b) in LivePeers(r, w.now) && Made(OriginOf(r, b), b, r.health[b]) in w.log))
  {
    var w := Run(w0, steps);
    ReachableSound(w0, steps);
    assert EntryShape(w.nodes[q], b);
    if b in w.nodes[q].remoteAt {
      assert MadeBy(w, OriginOf(w.nodes[q], b), b, w.nodes[q].health[b]);
    }
  }

  /** A peer that goes on reporting a finding keeps it alive exactly when its
      datagram is not behind the receiver's term: the gate comes before the restamp. */
  lemma RestampExactly(w0: World, steps: seq<Step>, q: string, b: string, m: Message)
    requires Initial(w0)
    requires var w := Run(w0, steps);
      && q in w.nodes && m in w.net && b in m.health
      && b in w.nodes[q].remoteAt && OriginOf(w.nodes[q], b) == m.node
      && w.nodes[q].remoteAt[b] < w.now
    ensures var w := Run(w0, steps);
            var s := Merge(w.nodes[q], m, w.now);
      b in s.remoteAt && (s.remoteAt[b] == w.now <==> w.nodes[q].term <= m.term)
  {
    var w := Run(w0, steps);
    ReachableSound(w0, steps);
    assert EntryShape(w.nodes[q], b);
    RestampAt(w.nodes[q], b, m, w.now);
  }

  lemma RestampAt(r: Replica, b: string, m: Message, now: int)
    requires EntryShape(r, b) && b in m.health && b in r.remoteAt
    requires OriginOf(r, b) == m.node && r.remoteAt[b] < now
    ensures var s := Merge(r, m, now);
      b in s.remoteAt && (s.remoteAt[b] == now <==> r.term <= m.term)
  {
    if Accepts(r, m) {
      MergeAt(r, m, now, b);
    }
  }

  // ---- a finding that is still reported ----

  /** `q` holds an entry about `b` that came from `p`. */
  predicate HoldsFrom(w: World, q: string, p: string, b: string) {
    q in w.nodes && b in w.nodes[q].remoteAt && OriginOf(w.nodes[q], b) == p
  }

  /** The step makes `q` accept a datagram in which `p` reports `b`. */
  predicate Reports(w: World, st: Step, q: string, p: string, b: string) {
    && st.Deliver? && st.to == q && Enabled(w, st) && Accepts(w.nodes[q], st.msg)
    && st.msg.node == p && b in st.msg.health
  }

  /** Along the run never more than the expiry window of `q` passes without such a step;
      the last one before it was at `last`. */
  predicate KeepsReporting(w: World, steps: seq<Step>, q: string, p: string, b: string, last: int)
    decreases |steps|
  {
    && q in w.nodes && w.now - last <= w.nodes[q].staleAfter
    && (steps == [] ||
        KeepsReporting(Apply(w, steps[0]), steps[1..], q, p, b,
                       if Reports(w, steps[0], q, p, b) then w.now else last))
  }

  /** At no moment of the run, the last included, is an entry of `p`'s about `b` stale. */
  predicate NeverStale(w: World, steps: seq<Step>, q: string, p: string, b: string)
    decreases |steps|
  {
    && (HoldsFrom(w, q, p, b) ==> !Stale(w.nodes[q], b, w.now))
    && (steps == [] || NeverStale(Apply(w, steps[0]), steps[1..], q, p, b))
  }

  lemma ReportStamps(w: World, st: Step, q: string, p: string, b: string, last: int)
    requires Sound(w) && q in w.nodes && last <= w.now
    requires HoldsFrom(w, q, p, b) ==> last <= w.nodes[q].remoteAt[b]
    ensures var w' := Apply(w, st);
      HoldsFrom(w', q, p, b) ==> (if Reports(w, st, q, p, b) then w.now else last) <= w'.nodes[q].remoteAt[b]
  {
    hide Absorb, Forget, Sound;
    if Enabled(w, st) {
      match st
      case Deliver(m, to) =>
        if to == q && Accepts(w.nodes[q], m) {
          MergeAt(w.nodes[q], m, w.now, b);
        }
      case ExpireRemote(node) =>
        if node == q {
          ExpireAt(w.nodes[q], w.now, b);
        }
      case _ =>
    }
  }

  lemma ClockStep(w: World, st: Step)
    ensures w.now <= Apply(w, st).now
  {
  }

  /** A finding never goes stale while datagrams reporting it keep being accepted, at
      least one per window, whatever else happens in between. */
  lemma {:induction false} ReportedNeverStale(w: World, steps: seq<Step>, q: string, p: string, b: string, last: int)
    requires Sound(w) && last <= w.now && KeepsReporting(w, steps, q, p, b, last)
    requires HoldsFrom(w, q, p, b) ==> last <= w.nodes[q].remoteAt[b]
    ensures NeverStale(w, steps, q, p, b)
    decreases |steps|
  {
    if steps != [] {
      ReportStamps(w, steps[0], q, p, b, last);
      StepSound(w, steps[0]);
      ClockStep(w, steps[0]);
      ReportedNeverStale(Apply(w, steps[0]), steps[1..], q, p, b,
                         if Reports(w, steps[0], q, p, b) then w.now else last);
    }
  }

  /** Nobody else's finding, and no observation of `q`'s own, takes the place of `p`'s. */
  predicate Unchallenged(w: World, steps: seq<Step>, q: string, p: string, b: string)
    decreases |steps|
  {
    steps == [] ||
    (&& (LeavesAlone(w, steps[0], q, b) || Reports(w, steps[0], q, p, b))
     && Unchallenged(Apply(w, steps[0]), steps[1..], q, p, b))
  }

  /** The stamp of an unchallenged finding moves exactly when a report is accepted. */
  lemma StampMoves(w: World, st: Step, q: string, p: string, b: string)
    requires Sound(w) && HoldsFrom(w, q, p, b) && !Stale(w.nodes[q], b, w.now)
    requires LeavesAlone(w, st, q, b) || Reports(w, st, q, p, b)
    ensures HoldsFrom(Apply(w, st), q, p, b)
    ensures Apply(w, st).nodes[q].remoteAt[b] == if Reports(w, st, q, p, b) then w.now else w.nodes[q].remoteAt[b]
    ensures Apply(w, st).nodes[q].staleAfter == w.nodes[q].staleAfter
  {
    hide Absorb, Forget, Sound;
    if Enabled(w, st) {
      match st
      case Deliver(m, to) =>
        if to == q && Accepts(w.nodes[q], m) {
          SoundShape(w, q, b);
          MergeAt(w.nodes[q], m, w.now, b);
        }
      case ExpireRemote(node) =>
        if node == q {
          ExpireAt(w.nodes[q], w.now, b);
        }
      case _ =>
    }
  }

  /** Exactly when a finding is kept alive: as long as nobody has something newer to say,
      it never goes stale if and only if its author's reports keep being accepted, never
      more than the window apart. */
  lemma {:induction false} NeverStaleExactly(w: World, steps: seq<Step>, q: string, p: string, b: string)
    requires Sound(w) && HoldsFrom(w, q, p, b) && Unchallenged(w, steps, q, p, b)
    ensures NeverStale(w, steps, q, p, b) <==> KeepsReporting(w, steps, q, p, b, w.nodes[q].remoteAt[b])
    decreases |steps|
  {
    if steps != [] && !Stale(w.nodes[q], b, w.now) {
      StampMoves(w, steps[0], q, p, b);
      StepSound(w, steps[0]);
      NeverStaleExactly(Apply(w, steps[0]), steps[1..], q, p, b);
    }
  }

  /** So it is still held, and honoured, at the end of any such run in which nobody else
      has something newer to say. */
  lemma {:induction false} ReportedStaysHeld(w: World, steps: seq<Step>, q: string, p: string, b: string, last: int)
    requires Sound(w) && last <= w.now && KeepsReporting(w, steps, q, p, b, last)
    requires HoldsFrom(w, q, p, b) && last <= w.nodes[q].remoteAt[b] && Unchallenged(w, steps, q, p, b)
    ensures var end := Run(w, steps);
      && HoldsFrom(end, q, p, b) && b in end.nodes[q].health
      && forall fallback :: Verdict(end.nodes[q], b, fallback, end.now) == end.nodes[q].health[b].healthy
    decreases |steps|
  {
    if steps == [] {
      assert EntryShape(w.nodes[q], b);
    } else {
      ReportStamps(w, steps[0], q, p, b, last);
      StampMoves(w, steps[0], q, p, b);
      StepSound(w, steps[0]);
      ClockStep(w, steps[0]);
      ReportedStaysHeld(Apply(w, steps[0]), steps[1..], q, p, b,
                        if Reports(w, steps[0], q, p, b) then w.now else last);
    }
  }

  lemma RunCons(w: World, st: Step, steps: seq<Step>)
    ensures Run(w, [st] + steps) == Run(Apply(w, st), steps)
  {
    assert ([st] + steps)[1..] == steps;
  }

  /** Reporting alone is not enough. Replica "a" observes "x" and reports it to "b"; "b"
      then sends twice, so that its term is ahead. */
  function Ahead(w: World, first: Message): World {
    Apply(Apply(Apply(Apply(Apply(w, SetHealth("a", "x", true)), SendGossip("a")), Deliver(first, "b")),
                SendGossip("b")), SendGossip("b"))
  }

  /** Well within the window "a" reports "x" again and the datagram arrives. */
  function ReportAgain(w: World, second: Message): World {
    Apply(Apply(Apply(w, Tick(10 * SECOND)), SendGossip("a")), Deliver(second, "b"))
  }

  function AheadThen(first: Message, steps: seq<Step>): seq<Step> {
    [SetHealth("a", "x", true)] +
    ([SendGossip("a")] + ([Deliver(first, "b")] + ([SendGossip("b")] + ([SendGossip("b")] + steps))))
  }

  function ReportThen(second: Message, steps: seq<Step>): seq<Step> {
    [Tick(10 * SECOND)] + ([SendGossip("a")] + ([Deliver(second, "b")] + steps))
  }

  function LaggingRun(first: Message, second: Message): seq<Step> {
    AheadThen(first, ReportThen(second, [Tick(6 * SECOND)] + [ExpireRemote("b")]))
  }

  lemma AheadSteps(w0: World, first: Message, steps: seq<Step>)
    ensures Run(w0, AheadThen(first, steps)) == Run(Ahead(w0, first), steps)
  {
    var s5 := [SendGossip("b")] + steps;
    var s4 := [SendGossip("b")] + s5;
    var s3 := [Deliver(first, "b")] + s4;
    var w1 := Apply(w0, SetHealth("a", "x", true));
    var w2 := Apply(w1, SendGossip("a"));
    var w3 := Apply(w2, Deliver(first, "b"));
    RunCons(w0, SetHealth("a", "x", true), [SendGossip("a")] + s3);
    RunCons(w1, SendGossip("a"), s3);
    RunCons(w2, Deliver(first, "b"), s4);
    RunCons(w3, SendGossip("b"), s5);
    RunCons(Apply(w3, SendGossip("b")), SendGossip("b"), steps);
  }

  lemma ReportSteps(w: World, second: Message, steps: seq<Step>)
    ensures Run(w, ReportThen(second, steps)) == Run(ReportAgain(w, second), steps)
  {
    var w1 := Apply(w, Tick(10 * SECOND));
    RunCons(w, Tick(10 * SECOND), [SendGossip("a")] + ([Deliver(second, "b")] + steps));
    RunCons(w1, SendGossip("a"), [Deliver(second, "b")] + steps);
    RunCons(Apply(w1, SendGossip("a")), Deliver(second, "b"), steps);
  }

  lemma LastSteps(w: World)
    ensures Run(w, [Tick(6 * SECOND)] + [ExpireRemote("b")]) == Apply(Apply(w, Tick(6 * SECOND)), ExpireRemote("b"))
  {
    RunCons(w, Tick(6 * SECOND), [ExpireRemote("b")]);
    RunCons(Apply(w, Tick(6 * SECOND)), ExpireRemote("b"), []);
  }

  /** "a" holds its own finding about "x"; "b" has it from "a", and its term is ahead. */
  ghost predicate Lagging(w: World, found: map<string, Finding>) {
    && "a" in w.nodes && "b" in w.nodes && "x" in found
    && w.nodes["a"].id == "a" && w.nodes["a"].own == found && w.nodes["a"].term == 2
    && HoldsFrom(w, "b", "a", "x") && w.nodes["b"].remoteAt["x"] == w.now && w.nodes["b"].own == map[]
    && w.nodes["b"].id == "b" && w.nodes["b"].term == 4 && w.nodes["b"].staleAfter == 15 * SECOND
  }

  lemma FreshAdopts(first: Message, now: int)
    requires first == Message("a", 2, map["x" := Finding(true, 0, 1)])
    ensures var s := Merge(Fresh("b", 5), first, now);
      && s.id == "b" && s.own == map[] && s.term == 2 && s.staleAfter == 15 * SECOND
      && "x" in s.remoteAt && s.remoteAt["x"] == now && OriginOf(s, "x") == "a"
  {
    MergeAt(Fresh("b", 5), first, now, "x");
  }

  lemma AheadLags(w0: World, first: Message)
    requires w0.nodes == map["a" := Fresh("a", 5), "b" := Fresh("b", 5)]
    requires first == Message("a", 2, map["x" := Finding(true, 0, 1)])
    ensures Lagging(Ahead(w0, first), first.health)
  {
    var w2 := Apply(Apply(w0, SetHealth("a", "x", true)), SendGossip("a"));
    assert w2.nodes["a"].own == first.health && first == Datagram(w2.nodes["a"]);
    FreshAdopts(first, w0.now);
    BFirst(w2, first);
  }

  lemma BFirst(w2: World, first: Message)
    requires "a" in w2.nodes && "b" in w2.nodes && first in w2.net
    ensures var w := Apply(Apply(Apply(w2, Deliver(first, "b")), SendGossip("b")), SendGossip("b"));
      && w.now == w2.now
      && w.nodes == w2.nodes["b" := Announce(Announce(Merge(w2.nodes["b"], first, w2.now)))]
  {
  }

  lemma LateReport(w: World, second: Message, found: map<string, Finding>)
    requires Lagging(w, found) && second == Message("a", 3, found)
    ensures var w' := ReportAgain(w, second);
      && "a" in w'.nodes && w'.nodes["a"].own == found && second in w'.net && w'.now == w.now + 10 * SECOND
      && "b" in w'.nodes && w'.nodes["b"] == Hear(w.nodes["b"], "a", w'.now)
  {
    var sent := Apply(Apply(w, Tick(10 * SECOND)), SendGossip("a"));
    assert Announce(w.nodes["a"]) == sent.nodes["a"] && Datagram(sent.nodes["a"]) == second;
  }

  /** The late datagram is behind: "b" forgets a finding that its author goes on holding
      and has reported to it within the window. */
  lemma ReportedYetForgotten(w0: World, first: Message, second: Message)
    requires Initial(w0) && w0.nodes == map["a" := Fresh("a", 5), "b" := Fresh("b", 5)]
    requires first == Message("a", 2, map["x" := Finding(true, 0, 1)]) && second == first.(term := 3)
    ensures var end := Run(w0, LaggingRun(first, second));
      "a" in end.nodes && "b" in end.nodes && "x" in end.nodes["a"].own && "x" !in end.nodes["b"].health
  {
    var w := Ahead(w0, first);
    var w' := ReportAgain(w, second);
    AheadLags(w0, first);
    LateReport(w, second, first.health);
    AheadSteps(w0, first, ReportThen(second, [Tick(6 * SECOND)] + [ExpireRemote("b")]));
    ReportSteps(w, second, [Tick(6 * SECOND)] + [ExpireRemote("b")]);
    LastSteps(w');
    Forgets(w, w', first.health, Apply(Apply(w', Tick(6 * SECOND)), ExpireRemote("b")));
  }

  lemma Forgets(w: World, w': World, found: map<string, Finding>, end: World)
    requires Lagging(w, found) && "a" in w'.nodes && "b" in w'.nodes && w'.nodes["a"].own == found
    requires w'.now == w.now + 10 * SECOND && w'.nodes["b"] == Hear(w.nodes["b"], "a", w'.now)
    requires end == Apply(Apply(w', Tick(6 * SECOND)), ExpireRemote("b"))
    ensures "a" in end.nodes && "b" in end.nodes && "x" in end.nodes["a"].own && "x" !in end.nodes["b"].health
  {
    ExpireAt(w'.nodes["b"], w'.now + 6 * SECOND, "x");
  }

  // ---- datagrams without a sender name ----

  /** What a nameless datagram does to one entry: an adopted one has a stamp and no
      author, and so has a local one that it repeats. */
  lemma NamelessEntry(r: Replica, m: Message, now: int, b: string)
    requires EntryShape(r, b) && m.node == "" && Accepts(r, m)
    ensures EntryShape(Merge(r, m, now), b) <==>
            (b in m.health ==> !Adopts(r, m, b) && OriginOf(r, b) != "")
  {
    MergeAt(r, m, now, b);
  }

  /** A datagram without a sender name leaves the bookkeeping sound exactly when it is
      late, or names only backends that are held from a peer at its term or a higher one;
      otherwise it stamps an entry that belongs to nobody. */
  lemma NamelessExactly(r: Replica, m: Message, now: int)
    requires Shaped(r) && r.id != "" && m.node == ""
    ensures Shaped(Merge(r, m, now)) <==>
            (m.term < r.term || forall b :: b in m.health ==> !Adopts(r, m, b) && OriginOf(r, b) != "")
  {
    var s := Merge(r, m, now);
    if Accepts(r, m) {
      forall b ensures EntryShape(s, b) <==> (b in m.health ==> !Adopts(r, m, b) && OriginOf(r, b) != "") {
        assert EntryShape(r, b);
        NamelessEntry(r, m, now, b);
      }
    }
  }

  /** For instance one that repeats a local finding: it matches the empty origin and
      stamps the finding as if a peer had asserted it. */
  lemma NamelessSenderStampsOwnFinding(r: Replica, b: string, now: int)
    requires Shaped(r) && r.id != "" && b in r.own && b !in r.remoteAt
    ensures var s := Merge(r, Message("", r.term, map[b := r.own[b]]), now);
      b in s.remoteAt && s.health[b] == r.own[b] && !EntryShape(s, b)
  {
    var m := Message("", r.term, map[b := r.own[b]]);
    assert EntryShape(r, b);
    MergeAt(r, m, now, b);
  }
}
