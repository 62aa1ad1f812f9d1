/** Runs of a whole gossip cluster.

    The network keeps every datagram ever sent and may hand any of them to any
    node at any time, or never: loss, delay, reordering and duplication are all
    runs of this machine. `log` is a history variable: the findings each node has
    made with its own SetHealth, and nothing else ever enters it. */
module Gossip {
  import opened Cluster

  datatype Made = Made(node: string, backend: string, finding: Finding)

  datatype World = World(
    nodes: map<string, Replica>,
    net: set<Message>,
    log: set<Made>,
    now: int)

  datatype Step =
    | Tick(elapsed: nat)
    | SetHealth(node: string, backend: string, healthy: bool)
    | SendGossip(node: string)
    | Deliver(msg: Message, to: string)
    | ExpireRemote(node: string)

  /** A datagram must have been sent before it arrives, and a step needs its node. */
  predicate Enabled(w: World, st: Step) {
    match st
    case Tick(_) => true
    case Deliver(msg, to) => msg in w.net && to in w.nodes
    case _ => st.node in w.nodes
  }

  function Apply(w: World, st: Step): World {
    if !Enabled(w, st) then w else
    match st
    case Tick(elapsed) => w.(now := w.now + elapsed)
    case SetHealth(p, b, healthy) =>
      var r := Observe(w.nodes[p], b, healthy);
      w.(nodes := w.nodes[p := r], log := w.log + {Made(p, b, r.own[b])})
    case SendGossip(p) =>
      var r := Announce(w.nodes[p]);
      w.(nodes := w.nodes[p := r], net := w.net + {Datagram(r)})
    case Deliver(msg, to) =>
      w.(nodes := w.nodes[to := Merge(w.nodes[to], msg, w.now)])
    case ExpireRemote(p) =>
      w.(nodes := w.nodes[p := Expire(w.nodes[p], w.now)])
  }

  function Run(w: World, steps: seq<Step>): World
    decreases |steps|
  {
    if steps == [] then w else Run(Apply(w, steps[0]), steps[1..])
  }

  /** How far the clock moves. */
  function Waits(steps: seq<Step>): nat
    decreases |steps|
  {
    if steps == [] then 0 else (if steps[0].Tick? then steps[0].elapsed else 0) + Waits(steps[1..])
  }

  /** A cluster that has just started: distinct, non-empty node names. */
  ghost predicate Initial(w: World) {
    && w.net == {} && w.log == {}
    && forall p :: p in w.nodes ==>
         p != "" && exists sec: int :: w.nodes[p] == Fresh(p, sec)
  }

  // ---- the invariant ----

  /** What one replica's maps say about backend `b` fits together: an entry is
      either a peer's (named origin, a stamp, strictly newer than any own finding)
      or it is exactly the node's own finding; and no entry is newer than the
      node's term. */
  ghost predicate EntryShape(r: Replica, b: string) {
    && (b in r.own ==> b in r.health)
    && (b in r.health ==> r.health[b].term <= r.term)
    && (if b in r.remoteAt then
          && b in r.health
          && OriginOf(r, b) != "" && OriginOf(r, b) != r.id
          && (b in r.own ==> r.own[b].term < r.health[b].term)
          && OriginOf(r, b) in r.seen && r.remoteAt[b] <= r.seen[OriginOf(r, b)]
        else
          && OriginOf(r, b) == ""
          && (b in r.health ==> b in r.own && r.health[b] == r.own[b]))
  }

  ghost predicate Shaped(r: Replica) {
    forall b :: EntryShape(r, b)
  }

  ghost predicate HeardBy(r: Replica, now: int) {
    forall p :: p in r.seen ==> r.seen[p] <= now
  }

  ghost predicate ReplicasSound(w: World) {
    forall p :: p in w.nodes ==>
      && p != "" && w.nodes[p].id == p
      && Shaped(w.nodes[p]) && HeardBy(w.nodes[p], w.now)
  }

  /** `f` is a finding about `b` that `p` has made itself. */
  ghost predicate MadeBy(w: World, p: string, b: string, f: Finding) {
    Made(p, b, f) in w.log
  }

  ghost predicate OwnIsLogged(w: World) {
    forall p, b :: p in w.nodes && b in w.nodes[p].own ==> MadeBy(w, p, b, w.nodes[p].own[b])
  }

  ghost predicate RemoteIsLogged(w: World) {
    forall q, b :: q in w.nodes && b in w.nodes[q].remoteAt && b in w.nodes[q].health ==>
      MadeBy(w, OriginOf(w.nodes[q], b), b, w.nodes[q].health[b])
  }

  ghost predicate MessageSound(w: World, m: Message) {
    && m.node in w.nodes
    && m.term <= w.nodes[m.node].term
    && forall b :: b in m.health ==>
         m.health[b].term <= m.term && MadeBy(w, m.node, b, m.health[b])
  }

  ghost predicate NetSound(w: World) {
    forall m :: m in w.net ==> MessageSound(w, m)
  }

  ghost predicate LoggedSound(w: World, e: Made) {
    && e.node in w.nodes
    && e.backend in w.nodes[e.node].own
    && e.finding.term <= w.nodes[e.node].own[e.backend].term
    && (e.finding.term == w.nodes[e.node].own[e.backend].term ==>
          e.finding == w.nodes[e.node].own[e.backend])
  }

  ghost predicate LogSound(w: World) {
    forall e :: e in w.log ==> LoggedSound(w, e)
  }

  /** A node never makes two findings under one term. */
  ghost predicate LogUnique(w: World) {
    forall d, e :: d in w.log && e in w.log && d.node == e.node && d.finding.term == e.finding.term ==>
      d == e
  }

  ghost predicate Sound(w: World) {
    && ReplicasSound(w) && OwnIsLogged(w) && RemoteIsLogged(w)
    && NetSound(w) && LogSound(w) && LogUnique(w)
  }

  lemma SoundShape(w: World, q: string, b: string)
    requires Sound(w) && q in w.nodes
    ensures EntryShape(w.nodes[q], b)
  {
  }

  lemma SenderNamed(w: World, m: Message)
    requires Sound(w) && m in w.net
    ensures m.node != ""
  {
    assert MessageSound(w, m);
  }

  // ---- one replica, one call ----

  lemma ObserveShaped(r: Replica, b: string, healthy: bool)
    requires Shaped(r)
    ensures Shaped(Observe(r, b, healthy))
  {
    var s := Observe(r, b, healthy);
    forall k ensures EntryShape(s, k) {
      assert EntryShape(r, k);
    }
  }

  lemma AnnounceShaped(r: Replica)
    requires Shaped(r)
    ensures Shaped(Announce(r))
  {
    forall k ensures EntryShape(Announce(r), k) {
      assert EntryShape(r, k);
    }
  }

  lemma ExpireShaped(r: Replica, now: int)
    requires Shaped(r)
    ensures Shaped(Expire(r, now))
  {
    forall k ensures EntryShape(Expire(r, now), k) {
      assert EntryShape(r, k);
    }
  }

  /** Where one backend ends up when `s` is `r` after a merge: adopted, re-stamped or left
      alone. */
  ghost predicate MergedAt(r: Replica, m: Message, now: int, b: string, s: Replica) {
    && s.own == r.own && s.id == r.id && s.term == m.term && s.staleAfter == r.staleAfter
    && s.seen == Hear(r, m.node, now).seen
    && (if Adopts(r, m, b) then
          && b in s.health && s.health[b] == m.health[b]
          && b in s.origin && s.origin[b] == m.node
          && b in s.remoteAt && s.remoteAt[b] == now
        else
          && (b in s.health <==> b in r.health) && (b in r.health ==> s.health[b] == r.health[b])
          && OriginOf(s, b) == OriginOf(r, b)
          && (if Reasserts(r, m, b) then b in s.remoteAt && s.remoteAt[b] == now
              else (b in s.remoteAt <==> b in r.remoteAt)
                   && (b in r.remoteAt ==> s.remoteAt[b] == r.remoteAt[b])))
  }

  lemma MergeAt(r: Replica, m: Message, now: int, b: string)
    requires Accepts(r, m)
    ensures MergedAt(r, m, now, b, Merge(r, m, now))
  {
  }

  lemma MergedShape(r: Replica, m: Message, now: int, b: string, s: Replica)
    requires EntryShape(r, b) && HeardBy(r, now) && m.node != "" && Accepts(r, m) && MergedAt(r, m, now, b, s)
    requires b in m.health ==> m.health[b].term <= m.term
    ensures EntryShape(s, b)
  {
  }

  lemma MergeShaped(r: Replica, m: Message, now: int)
    requires Shaped(r) && HeardBy(r, now) && m.node != ""
    requires forall b :: b in m.health ==> m.health[b].term <= m.term
    ensures Shaped(Merge(r, m, now)) && HeardBy(Merge(r, m, now), now)
  {
    var s := Merge(r, m, now);
    forall k ensures EntryShape(s, k) {
      assert EntryShape(r, k);
      if Accepts(r, m) {
        MergeAt(r, m, now, k);
        MergedShape(r, m, now, k, s);
      }
    }
  }

  /** Expiry leaves every surviving peer entry as it was. */
  lemma ExpireAt(r: Replica, now: int, b: string)
    ensures var s := Expire(r, now);
      && s.own == r.own && s.id == r.id && s.term == r.term
      && s.seen == r.seen && s.staleAfter == r.staleAfter
      && (if Stale(r, b, now) then
            && b !in s.remoteAt && OriginOf(s, b) == ""
            && (b in s.health <==> b in r.own) && (b in r.own ==> s.health[b] == r.own[b])
          else
            && (b in s.remoteAt <==> b in r.remoteAt)
            && (b in r.remoteAt ==> s.remoteAt[b] == r.remoteAt[b])
            && OriginOf(s, b) == OriginOf(r, b)
            && (b in s.health <==> b in r.health) && (b in r.health ==> s.health[b] == r.health[b]))
  {
  }

  // ---- one step of the cluster ----

  /** Replacing one replica by a later state of itself, with the same own map. */
  lemma ReplaceSound(w: World, p: string, r: Replica, net: set<Message>)
    requires Sound(w) && p in w.nodes
    requires r.id == p && r.own == w.nodes[p].own && w.nodes[p].term <= r.term
    requires Shaped(r) && HeardBy(r, w.now)
    requires forall b :: b in r.remoteAt && b in r.health ==>
               MadeBy(w, OriginOf(r, b), b, r.health[b])
    requires w.net <= net && forall m :: m in net && m !in w.net ==>
               && m.node == p && m.term <= r.term
               && forall b :: b in m.health ==>
                    m.health[b].term <= m.term && MadeBy(w, p, b, m.health[b])
    ensures Sound(w.(nodes := w.nodes[p := r], net := net))
  {
    var w' := w.(nodes := w.nodes[p := r], net := net);
    forall q, b | q in w'.nodes && b in w'.nodes[q].own
      ensures MadeBy(w', q, b, w'.nodes[q].own[b])
    {
      assert MadeBy(w, q, b, w.nodes[q].own[b]);
    }
    forall q, b | q in w'.nodes && b in w'.nodes[q].remoteAt && b in w'.nodes[q].health
      ensures MadeBy(w', OriginOf(w'.nodes[q], b), b, w'.nodes[q].health[b])
    {
      assert MadeBy(w, OriginOf(w'.nodes[q], b), b, w'.nodes[q].health[b]);
    }
    forall m | m in w'.net ensures MessageSound(w', m) {
      if m in w.net {
        assert MessageSound(w, m);
      }
      forall b | b in m.health ensures MadeBy(w', m.node, b, m.health[b]) {
        assert MadeBy(w, m.node, b, m.health[b]);
      }
    }
    forall e | e in w'.log ensures LoggedSound(w', e) {
      assert LoggedSound(w, e);
    }
  }

  /** Nothing in the log is newer than its author's term. */
  lemma LoggedTerm(w: World, e: Made)
    requires Sound(w) && e in w.log
    ensures LoggedSound(w, e) && e.finding.term <= w.nodes[e.node].term
  {
    assert LoggedSound(w, e);
    assert EntryShape(w.nodes[e.node], e.backend);
  }

  /** A longer log still has everything that is held or in flight. */
  lemma SetHealthLogged(w: World, p: string, b: string, healthy: bool, w': World)
    requires Sound(w) && p in w.nodes && w' == Apply(w, SetHealth(p, b, healthy))
    ensures OwnIsLogged(w') && RemoteIsLogged(w')
  {
    forall q, k | q in w'.nodes && k in w'.nodes[q].own
      ensures MadeBy(w', q, k, w'.nodes[q].own[k])
    {
      if q != p || k != b {
        assert MadeBy(w, q, k, w.nodes[q].own[k]);
      }
    }
    forall q, k | q in w'.nodes && k in w'.nodes[q].remoteAt && k in w'.nodes[q].health
      ensures MadeBy(w', OriginOf(w'.nodes[q], k), k, w'.nodes[q].health[k])
    {
      assert MadeBy(w, OriginOf(w.nodes[q], k), k, w.nodes[q].health[k]);
    }
  }

  lemma SetHealthNet(w: World, p: string, b: string, healthy: bool, w': World)
    requires Sound(w) && p in w.nodes && w' == Apply(w, SetHealth(p, b, healthy))
    ensures NetSound(w')
  {
    forall m | m in w'.net ensures MessageSound(w', m) {
      assert MessageSound(w, m);
      forall k | k in m.health ensures MadeBy(w', m.node, k, m.health[k]) {
        assert MadeBy(w, m.node, k, m.health[k]);
      }
    }
  }

  lemma SetHealthSound(w: World, p: string, b: string, healthy: bool)
    requires Sound(w) && p in w.nodes
    ensures Sound(Apply(w, SetHealth(p, b, healthy)))
  {
    var w' := Apply(w, SetHealth(p, b, healthy));
    ObserveShaped(w.nodes[p], b, healthy);
    SetHealthLogged(w, p, b, healthy, w');
    SetHealthNet(w, p, b, healthy, w');
    SetHealthLog(w, p, b, healthy, w');
    SetHealthUnique(w, p, b, healthy);
  }

  lemma SetHealthLog(w: World, p: string, b: string, healthy: bool, w': World)
    requires Sound(w) && p in w.nodes && w' == Apply(w, SetHealth(p, b, healthy))
    ensures LogSound(w')
  {
    forall e | e in w'.log ensures LoggedSound(w', e) {
      if e != Made(p, b, w'.nodes[p].own[b]) {
        LoggedTerm(w, e);
      }
    }
  }

  lemma SetHealthUnique(w: World, p: string, b: string, healthy: bool)
    requires Sound(w) && p in w.nodes
    ensures LogUnique(Apply(w, SetHealth(p, b, healthy)))
  {
    forall e | e in w.log && e.node == p ensures e.finding.term <= w.nodes[p].term {
      LoggedTerm(w, e);
    }
  }

  lemma SendGossipSound(w: World, p: string)
    requires Sound(w) && p in w.nodes
    ensures Sound(Apply(w, SendGossip(p)))
  {
    var r := Announce(w.nodes[p]);
    AnnounceShaped(w.nodes[p]);
    forall b | b in r.own ensures r.own[b].term <= r.term && MadeBy(w, p, b, r.own[b]) {
      assert EntryShape(r, b);
    }
    ReplaceSound(w, p, r, w.net + {Datagram(r)});
  }

  lemma ExpireSound(w: World, p: string)
    requires Sound(w) && p in w.nodes
    ensures Sound(Apply(w, ExpireRemote(p)))
  {
    var r := Expire(w.nodes[p], w.now);
    ExpireShaped(w.nodes[p], w.now);
    forall b | b in r.remoteAt && b in r.health
      ensures MadeBy(w, OriginOf(r, b), b, r.health[b])
    {
      ExpireAt(w.nodes[p], w.now, b);
    }
    ReplaceSound(w, p, r, w.net);
  }

  lemma DeliverSound(w: World, m: Message, q: string)
    requires Sound(w) && q in w.nodes && m in w.net
    ensures Sound(Apply(w, Deliver(m, q)))
  {
    var r := Merge(w.nodes[q], m, w.now);
    assert MessageSound(w, m);
    MergeShaped(w.nodes[q], m, w.now);
    forall b | b in r.remoteAt && b in r.health
      ensures MadeBy(w, OriginOf(r, b), b, r.health[b])
    {
      assert EntryShape(w.nodes[q], b);
      if Accepts(w.nodes[q], m) {
        MergeAt(w.nodes[q], m, w.now, b);
      }
    }
    ReplaceSound(w, q, r, w.net);
  }

  /** Every step, whatever the network does, keeps the cluster sound. */
  lemma StepSound(w: World, st: Step)
    requires Sound(w)
    ensures Sound(Apply(w, st))
  {
    if Enabled(w, st) {
      match st
      case Tick(_) =>
      case SetHealth(p, b, healthy) => SetHealthSound(w, p, b, healthy);
      case SendGossip(p) => SendGossipSound(w, p);
      case Deliver(m, q) => DeliverSound(w, m, q);
      case ExpireRemote(p) => ExpireSound(w, p);
    }
  }

  lemma {:induction false} RunSound(w: World, steps: seq<Step>)
    requires Sound(w)
    ensures Sound(Run(w, steps))
    decreases |steps|
  {
    if steps != [] {
      StepSound(w, steps[0]);
      RunSound(Apply(w, steps[0]), steps[1..]);
    }
  }

  lemma ReachableSound(w: World, steps: seq<Step>)
    requires Initial(w)
    ensures Sound(Run(w, steps))
  {
    assert Sound(w);
    RunSound(w, steps);
  }
}
