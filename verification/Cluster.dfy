/** One replica of the gossip cluster (internal/cluster/cluster.go).

    A replica keeps five maps and a term. `Replica` is the value of that state and
    the functions on it say what one call does; `Node` is the object that updates
    the maps in place, and each of its methods is proved against those functions.
    Every call takes one reading of the clock, `now`. */
module Cluster {
  import opened Maps

  /** A verdict about one backend, stamped with the term it was made under. */
  datatype Finding = Finding(healthy: bool, failures: int, term: nat)

  /** The parts of a gossip datagram that the merge looks at. */
  datatype Message = Message(node: string, term: nat, health: map<string, Finding>)

  datatype Replica = Replica(
    id: string,
    health: map<string, Finding>,   // what routing goes by: own findings and peers'
    own: map<string, Finding>,      // first-hand findings, the contents of every datagram
    origin: map<string, string>,    // who produced health[b]; empty or missing for its own
    remoteAt: map<string, int>,     // when a peer last asserted health[b]
    seen: map<string, int>,         // when each peer was last heard from
    term: nat,
    staleAfter: int)

  const SECOND: int := 1_000_000_000

  /** The expiry window NewNode derives from the gossip interval. */
  function StaleAfter(gossipSec: int): int {
    var sec := if gossipSec <= 0 then 5 else gossipSec;
    if sec * 3 < 15 then 15 * SECOND else sec * 3 * SECOND
  }

  function Fresh(id: string, gossipSec: int): Replica {
    Replica(id, map[], map[], map[], map[], map[], 0, StaleAfter(gossipSec))
  }

  predicate Stale(r: Replica, b: string, now: int) {
    b in r.remoteAt && now - r.remoteAt[b] > r.staleAfter
  }

  /** A missing origin reads as the empty string, which means "this node". */
  function OriginOf(r: Replica, b: string): string {
    if b in r.origin then r.origin[b] else ""
  }

  // ---- SetHealth ----

  /** The finding a local observation produces. The failure count continues from
      whatever entry is held, even a peer's. */
  function Observation(r: Replica, b: string, healthy: bool): Finding {
    var before := if b in r.health then r.health[b].failures else 0;
    Finding(healthy, if healthy then 0 else before + 1, r.term + 1)
  }

  function Observe(r: Replica, b: string, healthy: bool): Replica {
    var f := Observation(r, b, healthy);
    r.(term := r.term + 1, health := r.health[b := f], own := r.own[b := f],
       origin := r.origin[b := ""], remoteAt := r.remoteAt - {b})
  }

  // ---- sendGossip ----

  function Announce(r: Replica): Replica {
    r.(term := r.term + 1)
  }

  /** The datagram sent right after Announce. */
  function Datagram(r: Replica): Message {
    Message(r.id, r.term, r.own)
  }

  // ---- MergeGossip ----

  /** A datagram gets past the sender check and the term gate. */
  predicate Accepts(r: Replica, msg: Message) {
    msg.node != r.id && r.term <= msg.term
  }

  predicate Adopts(r: Replica, msg: Message, b: string) {
    b in msg.health && (b !in r.health || r.health[b].term < msg.health[b].term)
  }

  predicate Reasserts(r: Replica, msg: Message, b: string) {
    b in msg.health && !Adopts(r, msg, b) && OriginOf(r, b) == msg.node
  }

  function Adopted(r: Replica, msg: Message, ks: set<string>): set<string> {
    set b | b in ks && Adopts(r, msg, b)
  }

  function Stamped(r: Replica, msg: Message, ks: set<string>): set<string> {
    set b | b in ks && (Adopts(r, msg, b) || Reasserts(r, msg, b))
  }

  /** The entries of `msg` for the backends in `ks`, merged into `r`. */
  function Absorb(r: Replica, msg: Message, ks: set<string>, now: int): Replica
    requires ks <= msg.health.Keys
  {
    r.(health := Overlay(r.health, msg.health, Adopted(r, msg, ks)),
       origin := Filled(r.origin, Adopted(r, msg, ks), msg.node),
       remoteAt := Filled(r.remoteAt, Stamped(r, msg, ks), now))
  }

  /** What one round of the merge loop does with one entry of the datagram. */
  function AbsorbOne(r: Replica, msg: Message, b: string, now: int): Replica
    requires b in msg.health
  {
    if Adopts(r, msg, b) then
      r.(health := r.health[b := msg.health[b]], origin := r.origin[b := msg.node],
         remoteAt := r.remoteAt[b := now])
    else if Reasserts(r, msg, b) then r.(remoteAt := r.remoteAt[b := now])
    else r
  }

  function Hear(r: Replica, peer: string, now: int): Replica {
    if peer == "" then r else r.(seen := r.seen[peer := now])
  }

  /** Gossip never touches the node's own findings. */
  function Merge(r: Replica, msg: Message, now: int): (s: Replica)
    ensures s.own == r.own && s.id == r.id && s.staleAfter == r.staleAfter
    ensures s.term == if msg.node != r.id && r.term < msg.term then msg.term else r.term
  {
    if msg.node == r.id then r
    else if msg.term < r.term then Hear(r, msg.node, now)
    else Absorb(Hear(r, msg.node, now).(term := msg.term), msg, msg.health.Keys, now)
  }

  // ---- expireRemote ----

  /** Forgetting the backends in `gone`: each goes back to the node's own finding,
      or to unknown when there is none. */
  function Forget(r: Replica, gone: set<string>): Replica {
    r.(remoteAt := r.remoteAt - gone, origin := r.origin - gone,
       health := Restored(r.health, r.own, gone))
  }

  function ForgetOne(r: Replica, b: string): Replica {
    r.(remoteAt := r.remoteAt - {b}, origin := r.origin - {b},
       health := if b in r.own then r.health[b := r.own[b]] else r.health - {b})
  }

  /** What one round of the expiry loop does with one backend. */
  function ExpireOne(r: Replica, b: string, now: int): Replica {
    if Stale(r, b, now) then ForgetOne(r, b) else r
  }

  function StaleKeys(r: Replica, ks: set<string>, now: int): set<string> {
    set b | b in ks && Stale(r, b, now)
  }

  function Expire(r: Replica, now: int): Replica {
    Forget(r, StaleKeys(r, r.remoteAt.Keys, now))
  }

  // ---- queries ----

  function Verdict(r: Replica, b: string, localHealthy: bool, now: int): bool {
    if b !in r.health || Stale(r, b, now) then localHealthy else r.health[b].healthy
  }

  function LivePeers(r: Replica, now: int): set<string> {
    set p | p in r.seen && now - r.seen[p] <= r.staleAfter
  }

  /** The object itself. */
  class Node {
    const id: string
    const staleAfter: int
    var health: map<string, Finding>
    var own: map<string, Finding>
    var origin: map<string, string>
    var remoteAt: map<string, int>
    var seen: map<string, int>
    var term: nat

    function View(): Replica
      reads this
    {
      Replica(id, health, own, origin, remoteAt, seen, term, staleAfter)
    }

    constructor (id: string, gossipSec: int)
      ensures View() == Fresh(id, gossipSec)
      ensures gossipSec <= 5 ==> staleAfter == 15_000_000_000
      ensures gossipSec > 5 ==> staleAfter == 3_000_000_000 * gossipSec
    {
      var sec := gossipSec;
      if sec <= 0 {
        sec := 5;
      }
      var stale := sec * 3 * SECOND;
      if stale < 15 * SECOND {
        stale := 15 * SECOND;
      }
      this.id, staleAfter := id, stale;
      health, own, origin, remoteAt, seen, term := map[], map[], map[], map[], map[], 0;
    }

    method IncrementTerm() returns (t: nat)
      modifies `term
      ensures term == old(term) + 1 && t == term
    {
      term := term + 1;
      t := term;
    }

    method SetHealth(backend: string, healthy: bool)
      modifies this
      ensures View() == Observe(old(View()), backend, healthy)
    {
      var t := IncrementTerm();
      var failures := 0;
      if backend in health {
        failures := health[backend].failures;
      }
      if !healthy {
        failures := failures + 1;
      } else {
        failures := 0;
      }
      var h := Finding(healthy, failures, t);
      health := health[backend := h];
      own := own[backend := h];
      origin := origin[backend := ""];
      remoteAt := remoteAt - {backend};
    }

    method GetHealth(backend: string, localHealthy: bool, now: int) returns (ok: bool)
      ensures ok == Verdict(View(), backend, localHealthy, now)
    {
      if backend !in health {
        return localHealthy;
      }
      var stale := IsStale(backend, now);
      if stale {
        return localHealthy;
      }
      ok := health[backend].healthy;
    }

    method IsStale(backend: string, now: int) returns (stale: bool)
      ensures stale == Stale(View(), backend, now)
    {
      stale := backend in remoteAt && now - remoteAt[backend] > staleAfter;
    }

    /** The merged view drops exactly the stale entries. */
    method GetMergedHealth(now: int) returns (out: map<string, Finding>)
      ensures forall b :: b in out <==> b in health && !Stale(View(), b, now)
      ensures forall b :: b in out ==> out[b] == health[b]
    {
      out := map[];
      var todo := health.Keys;
      while todo != {}
        invariant todo <= health.Keys
        invariant forall b :: b in out <==> b in health && b !in todo && !Stale(View(), b, now)
        invariant forall b :: b in out ==> out[b] == health[b]
        decreases |todo|
      {
        var b :| b in todo;
        todo := todo - {b};
        var stale := IsStale(b, now);
        if !stale {
          out := out[b := health[b]];
        }
      }
    }

    method ExpireEntry(b: string, now: int)
      modifies `health, `origin, `remoteAt
      ensures View() == ExpireOne(old(View()), b, now)
    {
      var stale := IsStale(b, now);
      if !stale {
        return;
      }
      remoteAt := remoteAt - {b};
      origin := origin - {b};
      if b in own {
        health := health[b := own[b]];
      } else {
        health := health - {b};
      }
    }

    method ExpireRemote(now: int)
      modifies `health, `origin, `remoteAt
      ensures View() == Expire(old(View()), now)
    {
      hide Forget, ExpireOne;
      ghost var r := View();
      var todo := remoteAt.Keys;
      ghost var done: set<string> := {};
      ghost var cur := r;
      ForgetNone(r, now);
      while todo != {}
        invariant done <= r.remoteAt.Keys && todo == r.remoteAt.Keys - done
        invariant View() == cur && cur == Forget(r, StaleKeys(r, done, now))
        decreases |todo|
      {
        var b :| b in todo;
        ExpireEntry(b, now);
        ForgetOneMore(r, done, b, now);
        cur, done, todo := ExpireOne(cur, b, now), done + {b}, todo - {b};
      }
      assert done == r.remoteAt.Keys;
    }

    method SendGossip() returns (msg: Message)
      modifies `term
      ensures View() == Announce(old(View()))
      ensures msg == Datagram(View())
    {
      var _ := IncrementTerm();
      msg := Message(id, term, own);
    }

    method LivePeerCount(now: int) returns (count: nat)
      ensures count == |LivePeers(View(), now)|
      ensures count == |set p | p in seen && now - seen[p] <= staleAfter|
    {
      count := 0;
      var todo := seen.Keys;
      ghost var live: set<string> := {};
      while todo != {}
        invariant todo <= seen.Keys
        invariant live == set p | p in seen && p !in todo && now - seen[p] <= staleAfter
        invariant count == |live|
        decreases |todo|
      {
        var p :| p in todo;
        todo := todo - {p};
        if now - seen[p] <= staleAfter {
          count := count + 1;
          live := live + {p};
        }
      }
      assert live == LivePeers(View(), now);
    }

    method MarkPeerSeen(peer: string, now: int)
      modifies `seen
      ensures View() == Hear(old(View()), peer, now)
    {
      if peer == "" {
        return;
      }
      seen := seen[peer := now];
    }

    method MergeGossip(msg: Message, now: int)
      modifies this
      ensures View() == Merge(old(View()), msg, now)
    {
      if msg.node == id {
        return;
      }
      MarkPeerSeen(msg.node, now);
      if msg.term < term {
        return;
      }
      if msg.term > term {
        term := msg.term;
      }
      MergeHealth(msg, now);
    }

    method MergeHealth(msg: Message, now: int)
      modifies `health, `origin, `remoteAt
      ensures View() == Absorb(old(View()), msg, msg.health.Keys, now)
    {
      hide Absorb, AbsorbOne;
      ghost var r := View();
      var todo := msg.health.Keys;
      ghost var done: set<string> := {};
      ghost var cur := r;
      AbsorbNone(r, msg, now);
      while todo != {}
        invariant done <= msg.health.Keys && todo == msg.health.Keys - done
        invariant View() == cur && cur == Absorb(r, msg, done, now)
        decreases |todo|
      {
        var b :| b in todo;
        MergeEntry(msg, b, now);
        AbsorbOneMore(r, msg, done, b, now);
        cur, done, todo := AbsorbOne(cur, msg, b, now), done + {b}, todo - {b};
      }
      assert done == msg.health.Keys;
    }

    method MergeEntry(msg: Message, b: string, now: int)
      requires b in msg.health
      modifies `health, `origin, `remoteAt
      ensures View() == AbsorbOne(old(View()), msg, b, now)
    {
      var h := msg.health[b];
      if b !in health || h.term > health[b].term {
        health := health[b := h];
        origin := origin[b := msg.node];
        remoteAt := remoteAt[b := now];
      } else if (if b in origin then origin[b] else "") == msg.node {
        remoteAt := remoteAt[b := now];
      }
    }
  }

  lemma ForgetNone(r: Replica, now: int)
    ensures Forget(r, StaleKeys(r, {}, now)) == r
  {
    assert StaleKeys(r, {}, now) == {};
    assert Restored(r.health, r.own, {}) == r.health;
  }

  lemma AbsorbNone(r: Replica, msg: Message, now: int)
    ensures Absorb(r, msg, {}, now) == r
  {
    assert Adopted(r, msg, {}) == {} && Stamped(r, msg, {}) == {};
  }

  /** One more backend visited is one more round of the expiry loop: forgetting
      one backend does not make another stale. */
  lemma ForgetOneMore(r: Replica, done: set<string>, b: string, now: int)
    requires b !in done
    ensures Forget(r, StaleKeys(r, done + {b}, now)) ==
            ExpireOne(Forget(r, StaleKeys(r, done, now)), b, now)
  {
    var gone := StaleKeys(r, done, now);
    if Stale(r, b, now) {
      assert StaleKeys(r, done + {b}, now) == gone + {b};
      RestoredOneMore(r.health, r.own, gone, b);
      assert r.remoteAt - (gone + {b}) == r.remoteAt - gone - {b};
      assert r.origin - (gone + {b}) == r.origin - gone - {b};
    } else {
      assert StaleKeys(r, done + {b}, now) == gone;
    }
  }

  /** One more backend absorbed is one more round of the merge loop: no entry
      merged earlier changes what happens to this one. */
  lemma AbsorbOneMore(r: Replica, msg: Message, done: set<string>, b: string, now: int)
    requires done <= msg.health.Keys
    requires b in msg.health && b !in done
    ensures Absorb(r, msg, done + {b}, now) == AbsorbOne(Absorb(r, msg, done, now), msg, b, now)
  {
    var adopted, stamped := Adopted(r, msg, done), Stamped(r, msg, done);
    if Adopts(r, msg, b) {
      assert Adopted(r, msg, done + {b}) == adopted + {b};
      assert Stamped(r, msg, done + {b}) == stamped + {b};
      OverlayOneMore(r.health, msg.health, adopted, b);
      FilledOneMore(r.origin, adopted, b, msg.node);
      FilledOneMore(r.remoteAt, stamped, b, now);
    } else {
      assert Adopted(r, msg, done + {b}) == adopted;
      if OriginOf(r, b) == msg.node {
        assert Stamped(r, msg, done + {b}) == stamped + {b};
        FilledOneMore(r.remoteAt, stamped, b, now);
      } else {
        assert Stamped(r, msg, done + {b}) == stamped;
      }
    }
  }
}
