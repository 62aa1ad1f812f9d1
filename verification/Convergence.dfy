/** Two gossip rounds over a full mesh bring every replica to the same view.

    A turn is what one tick of a node's gossip loop does when no datagram is lost:
    the clock moves, the node expires what is stale, sends, and every other node
    receives. After it, until the next turn, anything else may happen that is no local
    observation and no further send: old datagrams arrive again anywhere, nodes expire
    what is stale, time passes. A round is any sequence of turns in which every node has
    at least one. */
module Convergence {
  import opened Cluster
  import opened Gossip

  datatype Turn = Turn(delay: nat, sender: string, receivers: seq<string>, strays: seq<Step>)

  /** A step that may come between two turns. */
  predicate Stray(st: Step) {
    st.Tick? || st.Deliver? || st.ExpireRemote?
  }

  predicate AllStray(steps: seq<Step>)
    decreases |steps|
  {
    steps == [] || (Stray(steps[0]) && AllStray(steps[1..]))
  }

  predicate FullMesh(t: Turn, nodes: set<string>) {
    && t.sender in nodes && AllStray(t.strays)
    && (forall q :: q in nodes && q != t.sender ==> q in t.receivers)
    && (forall i :: 0 <= i < |t.receivers| ==> t.receivers[i] in nodes && t.receivers[i] != t.sender)
    && (forall i, j :: 0 <= i < j < |t.receivers| ==> t.receivers[i] != t.receivers[j])
  }

  predicate Lossless(turns: seq<Turn>, nodes: set<string>) {
    turns == [] || (FullMesh(turns[0], nodes) && Lossless(turns[1..], nodes))
  }

  function Senders(turns: seq<Turn>): set<string> {
    if turns == [] then {} else {turns[0].sender} + Senders(turns[1..])
  }

  predicate Round(turns: seq<Turn>, nodes: set<string>) {
    Lossless(turns, nodes) && nodes <= Senders(turns)
  }

  function DeliverAll(w: World, m: Message, qs: seq<string>): World
    decreases |qs|
  {
    if qs == [] then w else DeliverAll(Apply(w, Deliver(m, qs[0])), m, qs[1..])
  }

  /** The world just before the datagram of a turn is delivered. */
  function Launch(w: World, t: Turn): World {
    Apply(Apply(Apply(w, Tick(t.delay)), ExpireRemote(t.sender)), SendGossip(t.sender))
  }

  function Exchange(w: World, t: Turn): World {
    if t.sender !in w.nodes then w else
    var w1 := Launch(w, t);
    DeliverAll(w1, Datagram(w1.nodes[t.sender]), t.receivers)
  }

  function TakeTurn(w: World, t: Turn): World {
    Run(Exchange(w, t), t.strays)
  }

  function TakeTurns(w: World, turns: seq<Turn>): World
    decreases |turns|
  {
    if turns == [] then w else TakeTurns(TakeTurn(w, turns[0]), turns[1..])
  }

  function Elapsed(turns: seq<Turn>): nat {
    if turns == [] then 0 else turns[0].delay + Waits(turns[0].strays) + Elapsed(turns[1..])
  }

  // ---- one turn, node by node ----

  lemma DeliverOne(w: World, m: Message, q: string)
    requires m in w.net && q in w.nodes
    ensures Apply(w, Deliver(m, q)) == w.(nodes := w.nodes[q := Merge(w.nodes[q], m, w.now)])
  {
  }

  lemma {:induction false} DeliverAllSound(w: World, m: Message, qs: seq<string>)
    requires Sound(w) && m in w.net
    ensures Sound(DeliverAll(w, m, qs))
    decreases |qs|
  {
    if qs != [] {
      var w1 := Apply(w, Deliver(m, qs[0]));
      StepSound(w, Deliver(m, qs[0]));
      DeliverAllSound(w1, m, qs[1..]);
    }
  }

  lemma {:induction false} DeliverAllAt(w: World, m: Message, qs: seq<string>)
    requires m in w.net
    requires forall i :: 0 <= i < |qs| ==> qs[i] in w.nodes
    requires forall i, j :: 0 <= i < j < |qs| ==> qs[i] != qs[j]
    ensures var w' := DeliverAll(w, m, qs);
      && w'.now == w.now && w'.nodes.Keys == w.nodes.Keys
      && forall q :: q in w.nodes ==>
           w'.nodes[q] == if q in qs then Merge(w.nodes[q], m, w.now) else w.nodes[q]
    decreases |qs|
  {
    if qs != [] {
      var w1 := w.(nodes := w.nodes[qs[0] := Merge(w.nodes[qs[0]], m, w.now)]);
      DeliverOne(w, m, qs[0]);
      DeliverAllAt(w1, m, qs[1..]);
      DeliverFirst(w, m, qs, DeliverAll(w1, m, qs[1..]));
    }
  }

  lemma DeliverFirst(w: World, m: Message, qs: seq<string>, w': World)
    requires qs != [] && qs[0] in w.nodes && forall i :: 0 < i < |qs| ==> qs[i] != qs[0]
    requires w'.nodes.Keys == w.nodes.Keys
    requires forall q :: q in w.nodes ==>
               w'.nodes[q] == if q in qs[1..] then Merge(w.nodes[q], m, w.now)
                              else if q == qs[0] then Merge(w.nodes[q], m, w.now) else w.nodes[q]
    ensures forall q :: q in w.nodes ==>
              w'.nodes[q] == if q in qs then Merge(w.nodes[q], m, w.now) else w.nodes[q]
  {
    assert qs == [qs[0]] + qs[1..];
  }

  /** After the exchange the sender has expired and announced; everyone else has merged. */
  ghost predicate AfterTurn(w: World, t: Turn, w': World) {
    && t.sender in w.nodes
    && Sound(w) && Sound(w') && w'.now == w.now + t.delay && w'.nodes.Keys == w.nodes.Keys
    && var s := Announce(Expire(w.nodes[t.sender], w'.now));
       && w'.nodes[t.sender] == s
       && forall q :: q in w.nodes && q != t.sender ==>
            w'.nodes[q] == Merge(w.nodes[q], Datagram(s), w'.now)
  }

  lemma LaunchAt(w: World, t: Turn)
    requires Sound(w) && t.sender in w.nodes
    ensures var w1 := Launch(w, t);
            var s := Announce(Expire(w.nodes[t.sender], w1.now));
      && Sound(w1) && w1.now == w.now + t.delay
      && w1.nodes == w.nodes[t.sender := s] && Datagram(s) in w1.net
  {
    var w1 := Apply(w, Tick(t.delay));
    StepSound(w, Tick(t.delay));
    StepSound(w1, ExpireRemote(t.sender));
    StepSound(Apply(w1, ExpireRemote(t.sender)), SendGossip(t.sender));
  }

  lemma TurnAt(w: World, t: Turn)
    requires Sound(w) && FullMesh(t, w.nodes.Keys)
    ensures AfterTurn(w, t, Exchange(w, t))
  {
    var w1 := Launch(w, t);
    LaunchAt(w, t);
    var m := Datagram(w1.nodes[t.sender]);
    DeliverAllSound(w1, m, t.receivers);
    DeliverAllAt(w1, m, t.receivers);
  }

  /** The own findings and the expiry windows are the same in both worlds. */
  ghost predicate SameOwn(w: World, w': World) {
    && w'.nodes.Keys == w.nodes.Keys
    && forall q :: q in w.nodes ==>
         w'.nodes[q].own == w.nodes[q].own && w'.nodes[q].staleAfter == w.nodes[q].staleAfter
  }

  lemma TurnKeepsOwn(w: World, t: Turn, w': World)
    requires AfterTurn(w, t, w')
    ensures SameOwn(w, w')
  {
  }

  // ---- round one: the terms become equal ----

  ghost predicate Leads(w: World, x: string) {
    x in w.nodes && forall q :: q in w.nodes ==> w.nodes[q].term <= w.nodes[x].term
  }

  ghost predicate Level(w: World) {
    forall p, q :: p in w.nodes && q in w.nodes ==> w.nodes[p].term == w.nodes[q].term
  }

  lemma TurnTerms(w: World, t: Turn, w': World, q: string)
    requires AfterTurn(w, t, w') && q in w.nodes
    ensures var sent := w.nodes[t.sender].term + 1;
      w'.nodes[q].term == if w.nodes[q].term < sent then sent else w.nodes[q].term
  {
  }

  /** A node of highest term keeps the highest term until its own turn, and its own
      turn makes all terms equal: nothing after it is stopped by the term gate. */
  lemma LeaderTurn(w: World, t: Turn, w': World, x: string)
    requires AfterTurn(w, t, w') && Leads(w, x)
    ensures Leads(w', x)
    ensures t.sender == x || Level(w) ==> Level(w')
  {
    forall q | q in w.nodes
      ensures var sent := w.nodes[t.sender].term + 1;
        w'.nodes[q].term == if w.nodes[q].term < sent then sent else w.nodes[q].term
    {
      TurnTerms(w, t, w', q);
    }
    if t.sender == x || Level(w) {
      forall q | q in w.nodes ensures w'.nodes[q].term == w.nodes[t.sender].term + 1 {
        assert w.nodes[q].term <= w.nodes[x].term;
      }
    }
  }

  // ---- what comes between two turns ----

  /** A datagram that is already out cannot lift a node above the leader. */
  lemma StrayLeads(w: World, st: Step, x: string)
    requires Sound(w) && Leads(w, x) && Stray(st)
    ensures Leads(Apply(w, st), x) && (Level(w) ==> Level(Apply(w, st)))
  {
    var w' := Apply(w, st);
    forall q | q in w.nodes ensures w.nodes[q].term <= w'.nodes[q].term <= w.nodes[x].term {
      StrayTerm(w, st, q, x);
    }
    if Level(w) {
      forall q | q in w.nodes ensures w'.nodes[q].term == w.nodes[x].term {
        assert w.nodes[q].term == w.nodes[x].term;
      }
    }
  }

  lemma StrayTerm(w: World, st: Step, q: string, x: string)
    requires Sound(w) && Leads(w, x) && Stray(st) && q in w.nodes
    ensures q in Apply(w, st).nodes && w.nodes[q].term <= Apply(w, st).nodes[q].term <= w.nodes[x].term
  {
    if st.Deliver? && st.msg in w.net {
      assert MessageSound(w, st.msg);
    }
  }

  lemma StrayKeepsOwn(w: World, st: Step)
    requires Stray(st)
    ensures SameOwn(w, Apply(w, st))
    ensures Apply(w, st).now == w.now + if st.Tick? then st.elapsed else 0
  {
    hide Absorb;
  }

  lemma {:induction false} StraysLead(w: World, strays: seq<Step>, x: string)
    requires Sound(w) && Leads(w, x) && AllStray(strays)
    ensures Sound(Run(w, strays)) && Leads(Run(w, strays), x)
    ensures Level(w) ==> Level(Run(w, strays))
    ensures SameOwn(w, Run(w, strays)) && Run(w, strays).now == w.now + Waits(strays)
    decreases |strays|
  {
    if strays != [] {
      var w1 := Apply(w, strays[0]);
      StepSound(w, strays[0]);
      StrayLeads(w, strays[0], x);
      StrayKeepsOwn(w, strays[0]);
      StraysLead(w1, strays[1..], x);
      SameOwnTwice(w, w1, Run(w1, strays[1..]));
    }
  }

  lemma {:induction false} LeaderLevels(w: World, turns: seq<Turn>, x: string)
    requires Sound(w) && Leads(w, x)
    requires Lossless(turns, w.nodes.Keys)
    requires Level(w) || x in Senders(turns)
    ensures Sound(TakeTurns(w, turns)) && Level(TakeTurns(w, turns))
    ensures TakeTurns(w, turns).now == w.now + Elapsed(turns)
    ensures SameOwn(w, TakeTurns(w, turns))
    decreases |turns|
  {
    if turns != [] {
      var t, w1, w' := turns[0], Exchange(w, turns[0]), TakeTurn(w, turns[0]);
      TurnAt(w, t);
      LeaderTurn(w, t, w1, x);
      TurnKeepsOwn(w, t, w1);
      StraysLead(w1, t.strays, x);
      SameOwnTwice(w, w1, w');
      LeaderLevels(w', turns[1..], x);
      SameOwnTwice(w, w', TakeTurns(w', turns[1..]));
    }
  }

  lemma {:induction false} SomeoneLeads(w: World, among: set<string>) returns (x: string)
    requires among <= w.nodes.Keys && among != {}
    ensures x in among && forall q :: q in among ==> w.nodes[q].term <= w.nodes[x].term
    decreases |among|
  {
    var p :| p in among;
    if among == {p} {
      x := p;
    } else {
      var y := SomeoneLeads(w, among - {p});
      x := if w.nodes[p].term <= w.nodes[y].term then y else p;
    }
  }

  // ---- round two: the findings catch up ----

  /** Node `q` knows `b` at term `t` or better, or a node that has yet to take its
      turn will tell it so. */
  ghost predicate Covered(w: World, spoken: set<string>, q: string, b: string, t: nat)
    requires q in w.nodes
  {
    || (b in w.nodes[q].health && t <= w.nodes[q].health[b].term)
    || (exists p :: p in w.nodes && p !in spoken && b in w.nodes[p].own && t <= w.nodes[p].own[b].term)
  }

  /** What `q` holds about `b` when the nodes in `spoken` have had their turn since
      `since`: their entries are freshly stamped and none of their findings is missed. */
  ghost predicate SettledAt(w: World, spoken: set<string>, since: int, q: string, b: string)
    requires q in w.nodes
  {
    && (b in w.nodes[q].remoteAt && OriginOf(w.nodes[q], b) in spoken ==> since <= w.nodes[q].remoteAt[b])
    && (forall p :: p in spoken && p in w.nodes && b in w.nodes[p].own ==>
          Covered(w, spoken, q, b, w.nodes[p].own[b].term))
  }

  ghost predicate Settled(w: World, spoken: set<string>, since: int) {
    forall q, b :: q in w.nodes ==> SettledAt(w, spoken, since, q, b)
  }

  /** The entry `q` holds about `b` is not newer than its author's own finding. */
  ghost predicate BelowAuthor(w: World, q: string, b: string)
    requires q in w.nodes
  {
    var r := w.nodes[q];
    b in r.remoteAt ==>
      var p := OriginOf(r, b);
      && b in r.health && p in w.nodes && p != q && b in w.nodes[p].own
      && r.health[b].term <= w.nodes[p].own[b].term
      && (r.health[b].term == w.nodes[p].own[b].term ==> r.health[b] == w.nodes[p].own[b])
  }

  lemma SoundEntry(w: World, q: string, b: string)
    requires Sound(w) && q in w.nodes
    ensures EntryShape(w.nodes[q], b) && BelowAuthor(w, q, b)
  {
    var r := w.nodes[q];
    assert EntryShape(r, b);
    if b in r.remoteAt {
      assert MadeBy(w, OriginOf(r, b), b, r.health[b]);
      assert LoggedSound(w, Made(OriginOf(r, b), b, r.health[b]));
    }
  }

  /** Expiry may drop an entry of the sender's, but only one whose author has not
      spoken yet and will assert it again. */
  lemma SenderCovers(w: World, w': World, p: string, spoken: set<string>, since: int, b: string, t: nat)
    requires p in w.nodes && SameOwn(w, w') && BelowAuthor(w, p, b)
    requires w'.nodes[p] == Announce(Expire(w.nodes[p], w'.now)) && EntryShape(w'.nodes[p], b)
    requires w'.now - since <= w.nodes[p].staleAfter
    requires b in w.nodes[p].remoteAt && OriginOf(w.nodes[p], b) in spoken ==> since <= w.nodes[p].remoteAt[b]
    requires w.nodes[p].own == w'.nodes[p].own
    requires (p !in spoken && b in w.nodes[p].own && t <= w.nodes[p].own[b].term) || Covered(w, spoken, p, b, t)
    requires b in w.nodes[p].own ==> b in w.nodes[p].health && w.nodes[p].own[b].term <= w.nodes[p].health[b].term
    ensures Covered(w', spoken + {p}, p, b, t)
  {
    var r := w.nodes[p];
    ExpireAt(r, w'.now, b);
    if b in r.health && t <= r.health[b].term {
      if Stale(r, b, w'.now) {
        var p' := OriginOf(r, b);
        assert p' in w'.nodes && p' !in spoken + {p} && t <= w'.nodes[p'].own[b].term;
      }
    } else {
      var p' :| p' in w.nodes && p' !in spoken && b in w.nodes[p'].own && t <= w.nodes[p'].own[b].term;
      assert p' in w'.nodes && p' !in spoken + {p} && t <= w'.nodes[p'].own[b].term;
    }
  }

  lemma SenderSettles(w: World, t: Turn, w': World, spoken: set<string>, since: int, b: string)
    requires AfterTurn(w, t, w') && SettledAt(w, spoken, since, t.sender, b)
    requires w'.now - since <= w.nodes[t.sender].staleAfter
    requires SameOwn(w, w')
    ensures SettledAt(w', spoken + {t.sender}, since, t.sender, b)
  {
    hide Sound;
    var p := t.sender;
    SoundEntry(w, p, b);
    SoundEntry(w', p, b);
    SenderStamp(w, w', p, spoken, since, b);
    forall p1 | p1 in spoken + {p} && p1 in w'.nodes && b in w'.nodes[p1].own
      ensures Covered(w', spoken + {p}, p, b, w'.nodes[p1].own[b].term)
    {
      if p1 in spoken {
        assert Covered(w, spoken, p, b, w.nodes[p1].own[b].term);
        SenderCovers(w, w', p, spoken, since, b, w.nodes[p1].own[b].term);
      }
    }
  }

  lemma SenderStamp(w: World, w': World, p: string, spoken: set<string>, since: int, b: string)
    requires p in w.nodes && p in w'.nodes && BelowAuthor(w, p, b)
    requires w'.nodes[p] == Announce(Expire(w.nodes[p], w'.now))
    requires b in w.nodes[p].remoteAt && OriginOf(w.nodes[p], b) in spoken ==> since <= w.nodes[p].remoteAt[b]
    ensures b in w'.nodes[p].remoteAt && OriginOf(w'.nodes[p], b) in spoken + {p} ==>
              since <= w'.nodes[p].remoteAt[b]
  {
    ExpireAt(w.nodes[p], w'.now, b);
  }

  /** The datagram passes the gate, so all it says is taken in: nothing that was
      covered is lost, and what the sender itself found is now covered. */
  lemma ReceiverCovers(w: World, w': World, p: string, q: string, spoken: set<string>, b: string, t: nat)
    requires p in w.nodes && q in w.nodes && p != q && SameOwn(w, w') && w.nodes[q].id == q
    requires w'.nodes[p].id == p && w.nodes[q].term <= w'.nodes[p].term
    requires w'.nodes[q] == Merge(w.nodes[q], Datagram(w'.nodes[p]), w'.now)
    requires (b in w.nodes[p].own && t <= w.nodes[p].own[b].term) || Covered(w, spoken, q, b, t)
    ensures Covered(w', spoken + {p}, q, b, t)
  {
    var r := w.nodes[q];
    MergeAt(r, Datagram(w'.nodes[p]), w'.now, b);
    if b in w.nodes[p].own && t <= w.nodes[p].own[b].term {
    } else if !(b in r.health && t <= r.health[b].term) {
      OthersToCome(w, w', p, q, spoken, b, t);
    }
  }

  lemma OthersToCome(w: World, w': World, p: string, q: string, spoken: set<string>, b: string, t: nat)
    requires q in w.nodes && SameOwn(w, w') && Covered(w, spoken, q, b, t)
    requires !(b in w.nodes[q].health && t <= w.nodes[q].health[b].term)
    requires p in w.nodes && !(b in w.nodes[p].own && t <= w.nodes[p].own[b].term)
    ensures Covered(w', spoken + {p}, q, b, t)
  {
    var p' :| p' in w.nodes && p' !in spoken && b in w.nodes[p'].own && t <= w.nodes[p'].own[b].term;
    assert p' in w'.nodes && p' !in spoken + {p} && t <= w'.nodes[p'].own[b].term;
  }

  lemma ReceiverStamp(w: World, w': World, p: string, q: string, spoken: set<string>, since: int, b: string)
    requires p in w.nodes && q in w.nodes && p != q && SameOwn(w, w') && w.nodes[q].id == q
    requires w'.nodes[p].id == p && w.nodes[q].term <= w'.nodes[p].term
    requires w'.nodes[q] == Merge(w.nodes[q], Datagram(w'.nodes[p]), w'.now)
    requires EntryShape(w.nodes[q], b) && BelowAuthor(w, q, b) && p != "" && since <= w'.now
    requires b in w.nodes[q].remoteAt && OriginOf(w.nodes[q], b) in spoken ==> since <= w.nodes[q].remoteAt[b]
    ensures b in w'.nodes[q].remoteAt && OriginOf(w'.nodes[q], b) in spoken + {p} ==>
              since <= w'.nodes[q].remoteAt[b]
  {
    MergeAt(w.nodes[q], Datagram(w'.nodes[p]), w'.now, b);
  }

  lemma ReceiverSettles(w: World, t: Turn, w': World, spoken: set<string>, since: int, q: string, b: string)
    requires AfterTurn(w, t, w') && q in w.nodes && q != t.sender
    requires SettledAt(w, spoken, since, q, b)
    requires since <= w'.now && w.nodes[q].term <= w.nodes[t.sender].term
    requires SameOwn(w, w')
    ensures SettledAt(w', spoken + {t.sender}, since, q, b)
  {
    var p := t.sender;
    SoundEntry(w, q, b);
    ReceiverStamp(w, w', p, q, spoken, since, b);
    forall p1 | p1 in spoken + {p} && p1 in w'.nodes && b in w'.nodes[p1].own
      ensures Covered(w', spoken + {p}, q, b, w'.nodes[p1].own[b].term)
    {
      if p1 in spoken {
        assert Covered(w, spoken, q, b, w.nodes[p1].own[b].term);
      }
      ReceiverCovers(w, w', p, q, spoken, b, w.nodes[p1].own[b].term);
    }
  }

  /** An expiry anywhere drops only entries whose author has not spoken yet. */
  lemma ExpireCovers(w: World, w': World, q: string, spoken: set<string>, since: int, b: string, t: nat)
    requires q in w.nodes && SameOwn(w, w') && BelowAuthor(w, q, b) && EntryShape(w.nodes[q], b)
    requires w'.nodes[q] == Expire(w.nodes[q], w.now) && w.now - since <= w.nodes[q].staleAfter
    requires b in w.nodes[q].remoteAt && OriginOf(w.nodes[q], b) in spoken ==> since <= w.nodes[q].remoteAt[b]
    requires Covered(w, spoken, q, b, t)
    ensures Covered(w', spoken, q, b, t)
  {
    var r := w.nodes[q];
    ExpireAt(r, w.now, b);
    if b in r.health && t <= r.health[b].term {
      if Stale(r, b, w.now) {
        var p := OriginOf(r, b);
        assert p in w'.nodes && p !in spoken && t <= w'.nodes[p].own[b].term;
      }
    } else {
      StillToCome(w, w', q, spoken, b, t);
    }
  }

  lemma StillToCome(w: World, w': World, q: string, spoken: set<string>, b: string, t: nat)
    requires q in w.nodes && SameOwn(w, w') && Covered(w, spoken, q, b, t)
    requires !(b in w.nodes[q].health && t <= w.nodes[q].health[b].term)
    ensures Covered(w', spoken, q, b, t)
  {
    var p :| p in w.nodes && p !in spoken && b in w.nodes[p].own && t <= w.nodes[p].own[b].term;
    assert p in w'.nodes && t <= w'.nodes[p].own[b].term;
  }

  /** A delivery never lowers the term of an entry. */
  lemma DeliverCovers(w: World, w': World, m: Message, q: string, spoken: set<string>, b: string, t: nat)
    requires q in w.nodes && SameOwn(w, w') && w'.nodes[q] == Merge(w.nodes[q], m, w.now)
    requires Covered(w, spoken, q, b, t)
    ensures Covered(w', spoken, q, b, t)
  {
    if Accepts(w.nodes[q], m) {
      MergeAt(w.nodes[q], m, w.now, b);
    }
    if !(b in w.nodes[q].health && t <= w.nodes[q].health[b].term) {
      StillToCome(w, w', q, spoken, b, t);
    }
  }

  lemma DeliverStamp(r: Replica, m: Message, now: int, spoken: set<string>, since: int, b: string)
    requires since <= now && (b in r.remoteAt && OriginOf(r, b) in spoken ==> since <= r.remoteAt[b])
    ensures var s := Merge(r, m, now);
      b in s.remoteAt && OriginOf(s, b) in spoken ==> since <= s.remoteAt[b]
  {
    if Accepts(r, m) {
      MergeAt(r, m, now, b);
    }
  }

  lemma SameCovers(w: World, w': World, q: string, spoken: set<string>, b: string, t: nat)
    requires q in w.nodes && SameOwn(w, w') && w'.nodes[q] == w.nodes[q] && Covered(w, spoken, q, b, t)
    ensures Covered(w', spoken, q, b, t)
  {
    if !(b in w.nodes[q].health && t <= w.nodes[q].health[b].term) {
      StillToCome(w, w', q, spoken, b, t);
    }
  }

  lemma StrayCovers(w: World, st: Step, w': World, spoken: set<string>, since: int, q: string, b: string, t: nat)
    requires Sound(w) && Stray(st) && w' == Apply(w, st) && SameOwn(w, w') && q in w.nodes
    requires SettledAt(w, spoken, since, q, b) && Covered(w, spoken, q, b, t)
    requires w.now - since <= w.nodes[q].staleAfter
    ensures Covered(w', spoken, q, b, t)
  {
    if st.Deliver? && Enabled(w, st) && st.to == q {
      DeliverCovers(w, w', st.msg, q, spoken, b, t);
    } else if st.ExpireRemote? && Enabled(w, st) && st.node == q {
      SoundEntry(w, q, b);
      ExpireCovers(w, w', q, spoken, since, b, t);
    } else {
      SameCovers(w, w', q, spoken, b, t);
    }
  }

  lemma StrayStamp(w: World, st: Step, w': World, spoken: set<string>, since: int, q: string, b: string)
    requires Stray(st) && w' == Apply(w, st) && q in w.nodes && q in w'.nodes && since <= w.now
    requires b in w.nodes[q].remoteAt && OriginOf(w.nodes[q], b) in spoken ==> since <= w.nodes[q].remoteAt[b]
    ensures b in w'.nodes[q].remoteAt && OriginOf(w'.nodes[q], b) in spoken ==> since <= w'.nodes[q].remoteAt[b]
  {
    if st.Deliver? && Enabled(w, st) && st.to == q {
      DeliverStamp(w.nodes[q], st.msg, w.now, spoken, since, b);
    } else if st.ExpireRemote? && Enabled(w, st) && st.node == q {
      ExpireAt(w.nodes[q], w.now, b);
    }
  }

  lemma StraySettles(w: World, st: Step, w': World, spoken: set<string>, since: int)
    requires Sound(w) && Stray(st) && w' == Apply(w, st) && Settled(w, spoken, since) && since <= w.now
    requires forall q :: q in w.nodes ==> w.now - since <= w.nodes[q].staleAfter
    ensures Settled(w', spoken, since)
  {
    StrayKeepsOwn(w, st);
    forall q, b | q in w'.nodes ensures SettledAt(w', spoken, since, q, b) {
      assert SettledAt(w, spoken, since, q, b);
      StrayStamp(w, st, w', spoken, since, q, b);
      forall p | p in spoken && p in w'.nodes && b in w'.nodes[p].own
        ensures Covered(w', spoken, q, b, w'.nodes[p].own[b].term)
      {
        StrayCovers(w, st, w', spoken, since, q, b, w.nodes[p].own[b].term);
      }
    }
  }

  lemma {:induction false} StraysSettle(w: World, strays: seq<Step>, spoken: set<string>, since: int)
    requires Sound(w) && AllStray(strays) && Settled(w, spoken, since) && since <= w.now
    requires forall q :: q in w.nodes ==> w.now + Waits(strays) - since <= w.nodes[q].staleAfter
    ensures Settled(Run(w, strays), spoken, since)
    decreases |strays|
  {
    if strays != [] {
      var w1 := Apply(w, strays[0]);
      StepSound(w, strays[0]);
      StrayKeepsOwn(w, strays[0]);
      StraySettles(w, strays[0], w1, spoken, since);
      StraysSettle(w1, strays[1..], spoken, since);
    }
  }

  /** Nothing stamped at `since` or later is stale by `until`. */
  ghost predicate InWindow(w: World, since: int, until: int) {
    forall q :: q in w.nodes ==> until - since <= w.nodes[q].staleAfter
  }

  lemma WindowMoves(w: World, w': World, since: int, until: int)
    requires InWindow(w, since, until) && SameOwn(w, w')
    ensures InWindow(w', since, until)
  {
  }

  lemma WindowShrinks(w: World, since: int, until: int, sooner: int)
    requires InWindow(w, since, until) && sooner <= until
    ensures InWindow(w, since, sooner)
  {
  }

  lemma {:induction false} RoundSettles(w: World, turns: seq<Turn>, spoken: set<string>, since: int)
    requires Sound(w) && Level(w) && Settled(w, spoken, since) && since <= w.now
    requires Lossless(turns, w.nodes.Keys) && InWindow(w, since, w.now + Elapsed(turns))
    ensures var w' := TakeTurns(w, turns);
      && Sound(w') && w'.now == w.now + Elapsed(turns) && SameOwn(w, w')
      && Settled(w', spoken + Senders(turns), since)
    decreases |turns|
  {
    hide Sound, Level, Settled, InWindow, TakeTurn, FullMesh;
    if turns == [] {
      assert spoken + Senders(turns) == spoken;
    } else {
      var t, w' := turns[0], TakeTurn(w, turns[0]);
      FirstTurn(w, t, w', spoken, since, w.now + Elapsed(turns));
      RoundSettles(w', turns[1..], spoken + {t.sender}, since);
      SameOwnTwice(w, w', TakeTurns(w', turns[1..]));
      assert spoken + {t.sender} + Senders(turns[1..]) == spoken + Senders(turns);
    }
  }

  lemma FirstTurn(w: World, t: Turn, w': World, spoken: set<string>, since: int, until: int)
    requires Sound(w) && Level(w) && Settled(w, spoken, since) && since <= w.now
    requires FullMesh(t, w.nodes.Keys) && w' == TakeTurn(w, t)
    requires InWindow(w, since, until) && w.now + t.delay + Waits(t.strays) <= until
    ensures Sound(w') && Level(w') && w'.now == w.now + t.delay + Waits(t.strays) && SameOwn(w, w')
    ensures Settled(w', spoken + {t.sender}, since) && InWindow(w', since, until)
  {
    WindowShrinks(w, since, until, w.now + t.delay + Waits(t.strays));
    TurnKeepsSettling(w, t, w', spoken, since);
    WindowMoves(w, w', since, until);
  }

  lemma TurnKeepsSettling(w: World, t: Turn, w': World, spoken: set<string>, since: int)
    requires Sound(w) && Level(w) && Settled(w, spoken, since) && since <= w.now
    requires FullMesh(t, w.nodes.Keys) && w' == TakeTurn(w, t)
    requires InWindow(w, since, w.now + t.delay + Waits(t.strays))
    ensures Sound(w') && Level(w') && w'.now == w.now + t.delay + Waits(t.strays) && SameOwn(w, w')
    ensures Settled(w', spoken + {t.sender}, since)
  {
    var w1 := Exchange(w, t);
    TurnAt(w, t);
    LeaderTurn(w, t, w1, t.sender);
    TurnSettles(w, t, w1, spoken, since);
    StraysLead(w1, t.strays, t.sender);
    StraysSettle(w1, t.strays, spoken + {t.sender}, since);
    SameOwnTwice(w, w1, w');
  }

  lemma TurnSettles(w: World, t: Turn, w': World, spoken: set<string>, since: int)
    requires AfterTurn(w, t, w') && Level(w) && Settled(w, spoken, since) && since <= w.now
    requires forall q :: q in w.nodes ==> w'.now - since <= w.nodes[q].staleAfter
    ensures SameOwn(w, w') && Settled(w', spoken + {t.sender}, since)
  {
    TurnKeepsOwn(w, t, w');
    forall q, b | q in w'.nodes ensures SettledAt(w', spoken + {t.sender}, since, q, b) {
      assert SettledAt(w, spoken, since, q, b);
      if q == t.sender {
        SenderSettles(w, t, w', spoken, since, b);
      } else {
        ReceiverSettles(w, t, w', spoken, since, q, b);
      }
    }
  }

  // ---- the result ----

  /** `p` holds a first-hand finding about `b` whose term no other node's exceeds. */
  ghost predicate TopAuthor(w: World, b: string, p: string) {
    && p in w.nodes && b in w.nodes[p].own
    && forall q :: q in w.nodes && b in w.nodes[q].own ==> w.nodes[q].own[b].term <= w.nodes[p].own[b].term
  }

  /** In `w`, node `q` has a fresh entry about `b`, and it is a top author's finding
      in `w0`; a top author holds its own. */
  ghost predicate CaughtUp(w0: World, w: World, q: string, b: string)
    requires q in w.nodes && w0.nodes.Keys == w.nodes.Keys
  {
    && b in w.nodes[q].health && !Stale(w.nodes[q], b, w.now)
    && (exists p :: TopAuthor(w0, b, p) && w.nodes[q].health[b] == w0.nodes[p].own[b])
    && (TopAuthor(w0, b, q) ==> w.nodes[q].health[b] == w0.nodes[q].own[b])
  }

  lemma SettledCatchesUp(w: World, spoken: set<string>, since: int, q: string, b: string)
    requires Sound(w) && q in w.nodes && SettledAt(w, spoken, since, q, b)
    requires w.nodes.Keys <= spoken && w.now - since <= w.nodes[q].staleAfter
    ensures b in w.nodes[q].health <==> Found(w, b)
    ensures b in w.nodes[q].health ==> CaughtUp(w, w, q, b)
  {
    SoundEntry(w, q, b);
    var r := w.nodes[q];
    forall p | p in w.nodes && b in w.nodes[p].own
      ensures b in r.health && w.nodes[p].own[b].term <= r.health[b].term
    {
      assert Covered(w, spoken, q, b, w.nodes[p].own[b].term);
    }
    if b in r.health {
      var p := if b in r.remoteAt then OriginOf(r, b) else q;
      assert TopAuthor(w, b, p) && r.health[b] == w.nodes[p].own[b];
    }
  }

  lemma CaughtUpBefore(w0: World, w: World, q: string, b: string)
    requires SameOwn(w0, w) && q in w.nodes && CaughtUp(w, w, q, b)
    ensures CaughtUp(w0, w, q, b)
  {
    forall p ensures TopAuthor(w0, b, p) == TopAuthor(w, b, p) {}
    var p :| TopAuthor(w, b, p) && w.nodes[q].health[b] == w.nodes[p].own[b];
    assert TopAuthor(w0, b, p) && w.nodes[q].health[b] == w0.nodes[p].own[b];
  }

  /** Somebody has a first-hand finding about `b`. */
  ghost predicate Found(w: World, b: string) {
    exists p :: p in w.nodes && b in w.nodes[p].own
  }

  ghost predicate AllCaughtUp(w: World, w': World, b: string)
    requires w.nodes.Keys == w'.nodes.Keys
  {
    forall q {:trigger CaughtUp(w, w', q, b)} :: q in w.nodes ==> CaughtUp(w, w', q, b)
  }

  lemma SettledAllCaughtUp(w: World, w': World, spoken: set<string>, since: int, b: string)
    requires Sound(w') && SameOwn(w, w') && Settled(w', spoken, since) && w'.nodes.Keys <= spoken
    requires forall q :: q in w'.nodes ==> w'.now - since <= w'.nodes[q].staleAfter
    ensures Found(w, b) ==> AllCaughtUp(w, w', b)
    ensures !Found(w, b) ==> forall q :: q in w.nodes ==> b !in w'.nodes[q].health
  {
    assert Found(w, b) == Found(w', b) by {
      assert forall p :: p in w.nodes ==> w'.nodes[p].own == w.nodes[p].own;
    }
    forall q | q in w.nodes
      ensures Found(w, b) <==> b in w'.nodes[q].health
      ensures Found(w, b) ==> CaughtUp(w, w', q, b)
    {
      assert SettledAt(w', spoken, since, q, b);
      SettledCatchesUp(w', spoken, since, q, b);
      if b in w'.nodes[q].health {
        CaughtUpBefore(w, w', q, b);
      }
    }
  }

  /** Two rounds from any sound state, in any order of turns, each node sending at
      least once per round, with stray deliveries, expiries and pauses anywhere between.
      The first round may take any time at all; the second must fit in the expiry window.
      Then every node has caught up with every first-hand finding in the cluster, and no
      own finding has changed. */
  lemma TwoRounds(w: World, first: seq<Turn>, w1: World, second: seq<Turn>, w2: World, b: string)
    requires Sound(w) && w.nodes != map[]
    requires Round(first, w.nodes.Keys) && Round(second, w.nodes.Keys)
    requires w1 == TakeTurns(w, first) && w2 == TakeTurns(w1, second)
    requires forall q :: q in w.nodes ==> Elapsed(second) <= w.nodes[q].staleAfter
    ensures Sound(w2) && SameOwn(w, w2)
    ensures Found(w, b) ==> AllCaughtUp(w, w2, b)
    ensures !Found(w, b) ==> forall q :: q in w.nodes ==> b !in w2.nodes[q].health
  {
    var x := SomeoneLeads(w, w.nodes.Keys);
    LeaderLevels(w, first, x);
    NobodySpoke(w1);
    SecondRound(w1, second, w2);
    SameOwnTwice(w, w1, w2);
    SettledAllCaughtUp(w, w2, Senders(second), w1.now, b);
  }

  lemma NobodySpoke(w: World)
    ensures Settled(w, {}, w.now)
  {
    forall q, b | q in w.nodes ensures SettledAt(w, {}, w.now, q, b) {}
  }

  lemma SameOwnTwice(w: World, w1: World, w2: World)
    requires SameOwn(w, w1) && SameOwn(w1, w2)
    ensures SameOwn(w, w2)
  {
  }

  lemma SecondRound(w: World, turns: seq<Turn>, w': World)
    requires Sound(w) && Level(w) && Settled(w, {}, w.now) && Lossless(turns, w.nodes.Keys)
    requires w' == TakeTurns(w, turns)
    requires forall q :: q in w.nodes ==> Elapsed(turns) <= w.nodes[q].staleAfter
    ensures Sound(w') && SameOwn(w, w') && w'.now == w.now + Elapsed(turns)
    ensures Settled(w', Senders(turns), w.now)
  {
    hide Sound, Level, Settled, Lossless, TakeTurns;
    RoundSettles(w, turns, {}, w.now);
    assert {} + Senders(turns) == Senders(turns);
  }

  /** The nodes that share the highest term for `b` found the same thing. */
  ghost predicate AuthorsAgree(w: World, b: string) {
    forall p, p' :: TopAuthor(w, b, p) && TopAuthor(w, b, p') ==> w.nodes[p].own[b] == w.nodes[p'].own[b]
  }

  /** All replicas hold one and the same finding about `b`. */
  ghost predicate Unanimous(w: World, b: string) {
    forall q, q' :: q in w.nodes && q' in w.nodes ==>
      && b in w.nodes[q].health && b in w.nodes[q'].health
      && w.nodes[q].health[b] == w.nodes[q'].health[b]
  }

  /** Node `q` holds `b` at the term of `author`'s finding; if the top authors agree,
      it holds that very finding and routes by it. */
  ghost predicate Follows(w: World, w': World, b: string, author: string, q: string)
    requires author in w.nodes && b in w.nodes[author].own && q in w'.nodes
  {
    var f := w.nodes[author].own[b];
    && b in w'.nodes[q].health && w'.nodes[q].health[b].term == f.term
    && (AuthorsAgree(w, b) ==>
          w'.nodes[q].health[b] == f && forall fallback :: Verdict(w'.nodes[q], b, fallback, w'.now) == f.healthy)
  }

  lemma CaughtUpFollows(w: World, w': World, b: string, author: string, q: string)
    requires SameOwn(w, w') && TopAuthor(w, b, author)
    requires q in w.nodes && CaughtUp(w, w', q, b)
    ensures Follows(w, w', b, author, q)
  {
    var p :| TopAuthor(w, b, p) && w'.nodes[q].health[b] == w.nodes[p].own[b];
  }

  lemma AllFollow(w: World, w': World, b: string, author: string)
    requires SameOwn(w, w') && TopAuthor(w, b, author)
    requires AllCaughtUp(w, w', b)
    ensures forall q {:trigger Follows(w, w', b, author, q)} :: q in w.nodes ==> Follows(w, w', b, author, q)
  {
    forall q | q in w.nodes ensures Follows(w, w', b, author, q) {
      CaughtUpFollows(w, w', b, author, q);
    }
  }

  lemma AgreeingAuthorsUnite(w: World, w': World, b: string, author: string)
    requires SameOwn(w, w') && author in w.nodes && b in w.nodes[author].own
    requires AuthorsAgree(w, b)
    requires forall q {:trigger Follows(w, w', b, author, q)} :: q in w.nodes ==> Follows(w, w', b, author, q)
    ensures Unanimous(w', b)
  {
    forall q | q in w.nodes ensures b in w'.nodes[q].health && w'.nodes[q].health[b] == w.nodes[author].own[b] {
      assert Follows(w, w', b, author, q);
    }
  }

  lemma DividedAuthorsStayDivided(w: World, w': World, b: string)
    requires SameOwn(w, w') && Unanimous(w', b)
    requires AllCaughtUp(w, w', b)
    ensures AuthorsAgree(w, b)
  {
    forall p, p' | TopAuthor(w, b, p) && TopAuthor(w, b, p')
      ensures w.nodes[p].own[b] == w.nodes[p'].own[b]
    {
      assert CaughtUp(w, w', p, b) && CaughtUp(w, w', p', b);
    }
  }

  /** Convergence, and exactly when it is agreement. From any reachable state, two
      rounds, whatever old datagrams are delivered again between the turns, bring every
      replica to the highest first-hand term for `b`; and all hold the same finding if
      and only if the nodes sharing that term had found the same thing, because equal
      terms have no tie-break. */
  lemma ConvergenceIsAgreement(w0: World, history: seq<Step>, w: World, first: seq<Turn>, w1: World,
                               second: seq<Turn>, w2: World, b: string, author: string)
    requires Initial(w0) && w == Run(w0, history)
    requires Round(first, w.nodes.Keys) && Round(second, w.nodes.Keys)
    requires w1 == TakeTurns(w, first) && w2 == TakeTurns(w1, second)
    requires forall q :: q in w.nodes ==> Elapsed(second) <= w.nodes[q].staleAfter
    requires TopAuthor(w, b, author)
    ensures w2.nodes.Keys == w.nodes.Keys
    ensures forall q {:trigger Follows(w, w2, b, author, q)} :: q in w.nodes ==> Follows(w, w2, b, author, q)
    ensures AuthorsAgree(w, b) <==> Unanimous(w2, b)
  {
    ReachableSound(w0, history);
    TwoRounds(w, first, w1, second, w2, b);
    assert Found(w, b);
    AllFollow(w, w2, b, author);
    if AuthorsAgree(w, b) {
      AgreeingAuthorsUnite(w, w2, b, author);
    }
    if Unanimous(w2, b) {
      DividedAuthorsStayDivided(w, w2, b);
    }
  }

  /** Divided authors do occur: two fresh replicas that each observe the backend once,
      with opposite results, share the highest term. */
  lemma TieIsReachable(w0: World)
    requires Initial(w0) && w0.nodes.Keys == {"a", "b"}
    ensures var w := Run(w0, [SetHealth("a", "x", true), SetHealth("b", "x", false)]);
      TopAuthor(w, "x", "a") && TopAuthor(w, "x", "b") && !AuthorsAgree(w, "x")
  {
    var up, down := SetHealth("a", "x", true), SetHealth("b", "x", false);
    var w1 := Apply(w0, up);
    TwoSteps(w0, up, down);
    FirstObservation(w0, "a", "x", true);
    FirstObservation(w1, "b", "x", false);
    assert TopAuthor(Apply(w1, down), "x", "a") && TopAuthor(Apply(w1, down), "x", "b");
  }

  lemma TwoSteps(w: World, s: Step, t: Step)
    ensures Run(w, [s, t]) == Apply(Apply(w, s), t)
  {
    assert [s, t][1..] == [t] && [t][1..] == [];
    assert Run(Apply(w, s), [t]) == Run(Apply(Apply(w, s), t), []);
  }

  lemma FirstObservation(w: World, p: string, b: string, healthy: bool)
    requires p in w.nodes && w.nodes[p].term == 0 && w.nodes[p].own == map[] && w.nodes[p].health == map[]
    ensures var w' := Apply(w, SetHealth(p, b, healthy));
      w'.nodes == w.nodes[p := w'.nodes[p]] &&
      w'.nodes[p].own == map[b := Finding(healthy, if healthy then 0 else 1, 1)]
  {
  }
}
