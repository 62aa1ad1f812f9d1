/** Shares, duplicates and minima: what the picks of a balancer add up to. */
module BalancerTheorems {
  import opened Breaker
  import opened HealthChecker
  import opened Balancer

  // ---- counting ----

  function Tally<T(==)>(s: seq<T>, x: T): nat {
    if s == [] then 0 else (if s[0] == x then 1 else 0) + Tally(s[1..], x)
  }

  lemma {:induction false} TallyConcat<T>(s: seq<T>, t: seq<T>, x: T)
    ensures Tally(s + t, x) == Tally(s, x) + Tally(t, x)
  {
    if s == [] {
      assert s + t == t;
    } else {
      assert (s + t)[1..] == s[1..] + t;
      TallyConcat(s[1..], t, x);
    }
  }

  lemma {:induction false} TallyNone<T>(s: seq<T>, x: T)
    requires x !in s
    ensures Tally(s, x) == 0
  {
    if s != [] {
      TallyNone(s[1..], x);
    }
  }

  /** Reading a sequence cyclically from anywhere counts the same elements. */
  lemma TallyRotation<T>(s: seq<T>, k: nat, x: T)
    requires s != []
    ensures Tally(Rotation(s, k), x) == Tally(s, x)
  {
    var r := k % |s|;
    TallyConcat(s[r..], s[..r], x);
    TallyConcat(s[..r], s[r..], x);
    assert s == s[..r] + s[r..];
  }

  // ---- weighted round robin ----

  /** What a pick sees: the circuits, what health says, the time. */
  datatype Moment = Moment(circuits: Circuits, up: set<string>, now: int)

  predicate Willing(m: Moment, url: string) {
    Answers(m.circuits, m.up, url, m.now)
  }

  /** The pick of a round robin whose counter stands at `counter`, by the code's own slot
      indices. */
  function PickAt(slots: seq<string>, counter: nat, m: Moment): Pick {
    Landed(ScanSlots(slots, counter, m.circuits, m.up, m.now))
  }

  /** The picks of one generation, each at its own moment; anything may happen to the
      backends between two picks. */
  function Picks(slots: seq<string>, counter: nat, ms: seq<Moment>): (ps: seq<Pick>)
    ensures |ps| == |ms|
    decreases |ms|
  {
    if ms == [] then []
    else [PickAt(slots, counter, ms[0])] + Picks(slots, counter + 1, ms[1..])
  }

  lemma {:induction false} PicksAt(slots: seq<string>, counter: nat, ms: seq<Moment>, i: nat)
    requires i < |ms|
    ensures Picks(slots, counter, ms)[i] == PickAt(slots, counter + i, ms[i])
    decreases i
  {
    if i > 0 {
      assert ms[1..][i - 1] == ms[i] && (counter + 1) + (i - 1) == counter + i;
      PicksAt(slots, counter + 1, ms[1..], i - 1);
    }
  }

  /** Somebody willing stands before `url` in `order`. */
  predicate Shielded(order: seq<string>, m: Moment, url: string) {
    exists j :: 0 <= j < |order| && Willing(m, order[j]) && Absent(order, j, url)
  }

  /** `url` is not among the first `j + 1`. */
  predicate Absent(order: seq<string>, j: nat, url: string)
    requires j < |order|
  {
    forall l :: 0 <= l <= j ==> order[l] != url
  }

  lemma ShieldedTail(order: seq<string>, m: Moment, url: string)
    requires order != [] && order[0] != url && !Willing(m, order[0])
    ensures Shielded(order, m, url) <==> Shielded(order[1..], m, url)
  {
    var others := order[1..];
    if j :| 0 <= j < |order| && Willing(m, order[j]) && Absent(order, j, url) {
      assert Willing(m, others[j - 1]) && Absent(others, j - 1, url);
    }
    if j :| 0 <= j < |others| && Willing(m, others[j]) && Absent(others, j, url) {
      assert order[j + 1] == others[j];
      forall l | 0 <= l <= j + 1 ensures order[l] != url {
        assert l > 0 ==> order[l] == others[l - 1];
      }
      assert Willing(m, order[j + 1]) && Absent(order, j + 1, url);
    }
  }

  /** A willing backend is the first that answers exactly if nobody ahead of it is. */
  lemma {:induction false} FirstUnlessShielded(order: seq<string>, m: Moment, url: string)
    requires url in order && Willing(m, url)
    ensures FirstAnswering(order, m.circuits, m.up, m.now) == Picked(url) <==> !Shielded(order, m, url)
  {
    if order[0] != url {
      if Willing(m, order[0]) {
        assert Absent(order, 0, url);
      } else {
        ShieldedTail(order, m, url);
        FirstUnlessShielded(order[1..], m, url);
      }
    } else {
      forall j | 0 <= j < |order| ensures !Absent(order, j, url) {}
    }
  }

  /** Within Go's int, pick `i` of a window goes to a willing backend exactly if nobody
      willing stands between the counter's position and its next slot. */
  lemma PickUnlessShielded(slots: seq<string>, counter: nat, ms: seq<Moment>, url: string, i: nat)
    requires i < |ms| == |slots| && counter + 2 * |slots| <= INT_MAX
    requires url in slots && Willing(ms[i], url)
    ensures Picks(slots, counter, ms)[i] == Picked(url) <==> !Shielded(Rotation(slots, counter + i), ms[i], url)
  {
    PicksAt(slots, counter, ms, i);
    PickIsFirst(slots, counter + i, ms[i]);
    InRotation(slots, counter + i, url);
    FirstUnlessShielded(Rotation(slots, counter + i), ms[i], url);
  }

  lemma PickIsFirst(slots: seq<string>, counter: nat, m: Moment)
    requires slots != [] && counter + |slots| <= INT_MAX
    ensures PickAt(slots, counter, m) == FirstAnswering(Rotation(slots, counter), m.circuits, m.up, m.now)
  {
    ScanIsRotation(slots, counter, m.circuits, m.up, m.now);
  }

  lemma InRotation(slots: seq<string>, k: nat, url: string)
    requires url in slots
    ensures url in Rotation(slots, k)
  {
    var r := k % |slots|;
    assert slots == slots[..r] + slots[r..];
  }

  lemma {:induction false} TallyAtLeast(turns: seq<string>, picks: seq<Pick>, url: string)
    requires |turns| == |picks|
    requires forall i :: 0 <= i < |turns| && turns[i] == url ==> picks[i] == Picked(url)
    ensures Tally(picks, Picked(url)) >= Tally(turns, url)
  {
    if turns != [] {
      TallyAtLeast(turns[1..], picks[1..], url);
    }
  }

  lemma {:induction false} TallyExact(turns: seq<string>, picks: seq<Pick>, url: string)
    requires |turns| == |picks|
    requires forall i :: 0 <= i < |turns| && turns[i] == url ==> picks[i] == Picked(url)
    ensures Tally(picks, Picked(url)) == Tally(turns, url) <==>
            forall i :: 0 <= i < |turns| && turns[i] != url ==> picks[i] != Picked(url)
  {
    if turns != [] {
      var turns', picks' := turns[1..], picks[1..];
      TallyAtLeast(turns', picks', url);
      TallyExact(turns', picks', url);
      assert forall i :: 0 <= i < |turns'| ==> turns'[i] == turns[i + 1] && picks'[i] == picks[i + 1];
      assert forall i :: 0 < i < |turns| ==> turns[i] == turns'[i - 1] && picks[i] == picks'[i - 1];
    }
  }

  predicate DistinctUrls(bs: seq<Entry>) {
    forall i, j :: 0 <= i < j < |bs| ==> bs[i].url != bs[j].url
  }

  lemma {:induction false} RepeatTally(url: string, n: nat)
    ensures Tally(Repeat(url, n), url) == n
  {
    if n > 0 {
      RepeatTally(url, n - 1);
      assert Repeat(url, n)[1..] == Repeat(url, n - 1);
    }
  }

  lemma {:induction false} SlotsFrom(bs: seq<Entry>, url: string)
    requires forall i :: 0 <= i < |bs| ==> bs[i].weight >= 0
    ensures url in Slots(bs) <==> exists i :: 0 <= i < |bs| && bs[i].url == url
  {
    if bs != [] {
      SlotsFrom(bs[1..], url);
      if url in Slots(bs) && url != bs[0].url {
        var i :| 0 <= i < |bs| - 1 && bs[1..][i].url == url;
        assert bs[i + 1].url == url;
      }
      if i :| 0 <= i < |bs| && bs[i].url == url {
        if i == 0 {
          assert Repeat(url, Share(bs[0]))[0] == url;
          assert Slots(bs)[0] == url;
        } else {
          assert bs[1..][i - 1].url == url;
        }
      }
    }
  }

  /** A backend has as many slots as its weight, at least one. */
  lemma {:induction false} SlotsTally(bs: seq<Entry>, k: nat)
    requires k < |bs| && DistinctUrls(bs) && forall i :: 0 <= i < |bs| ==> bs[i].weight >= 0
    ensures Tally(Slots(bs), bs[k].url) == Share(bs[k])
  {
    var url, first, others := bs[k].url, Repeat(bs[0].url, Share(bs[0])), Slots(bs[1..]);
    TallyConcat(first, others, url);
    if k == 0 {
      RepeatTally(url, Share(bs[0]));
      SlotsFrom(bs[1..], url);
      forall i | 0 <= i < |bs| - 1 ensures bs[1..][i].url != url {
        assert bs[1..][i] == bs[i + 1];
      }
      TallyNone(others, url);
    } else {
      SlotsTally(bs[1..], k - 1);
      TallyNone(first, url);
    }
  }

  /** On every turn of the window that is not its own, somebody willing stands before the
      next slot of `url`. */
  predicate AlwaysShielded(slots: seq<string>, counter: nat, ms: seq<Moment>, url: string)
    requires slots != [] && |ms| == |slots|
  {
    forall i :: 0 <= i < |ms| && Rotation(slots, counter)[i] != url ==> ShieldedAt(slots, counter, ms, url, i)
  }

  predicate ShieldedAt(slots: seq<string>, counter: nat, ms: seq<Moment>, url: string, i: nat)
    requires slots != [] && i < |ms|
  {
    Shielded(Rotation(slots, counter + i), ms[i], url)
  }

  lemma SharesOfSlots(slots: seq<string>, counter: nat, ms: seq<Moment>, url: string)
    requires url in slots && |ms| == |slots| && counter + 2 * |slots| <= INT_MAX
    requires forall i :: 0 <= i < |ms| ==> Willing(ms[i], url)
    ensures Tally(Picks(slots, counter, ms), Picked(url)) >= Tally(slots, url)
    ensures Tally(Picks(slots, counter, ms), Picked(url)) == Tally(slots, url) <==>
            AlwaysShielded(slots, counter, ms, url)
  {
    var turns, picks := Rotation(slots, counter), Picks(slots, counter, ms);
    TallyRotation(slots, counter, url);
    forall i: nat | i < |turns|
      ensures picks[i] == Picked(url) <==> !ShieldedAt(slots, counter, ms, url, i)
      ensures turns[i] == url ==> picks[i] == Picked(url)
    {
      WindowPick(slots, counter, ms, url, i);
    }
    TallyAtLeast(turns, picks, url);
    TallyExact(turns, picks, url);
  }

  lemma WindowPick(slots: seq<string>, counter: nat, ms: seq<Moment>, url: string, i: nat)
    requires i < |ms| == |slots| && counter + 2 * |slots| <= INT_MAX
    requires url in slots && Willing(ms[i], url)
    ensures Picks(slots, counter, ms)[i] == Picked(url) <==> !ShieldedAt(slots, counter, ms, url, i)
    ensures Rotation(slots, counter)[i] == url ==> Picks(slots, counter, ms)[i] == Picked(url)
  {
    PickUnlessShielded(slots, counter, ms, url, i);
    if Rotation(slots, counter)[i] == url {
      OwnTurn(slots, counter, ms[i], url, i);
    }
  }

  /** On its own turn nobody stands before it. */
  lemma OwnTurn(slots: seq<string>, counter: nat, m: Moment, url: string, i: nat)
    requires slots != [] && i < |slots| && Rotation(slots, counter)[i] == url
    ensures !Shielded(Rotation(slots, counter + i), m, url)
  {
    var order := Rotation(slots, counter + i);
    RotationAt(slots, counter, i);
    RotationAt(slots, counter + i, 0);
    forall j | 0 <= j < |order| ensures !Absent(order, j, url) {
      assert order[0] == url;
    }
  }

  /** In any window of sum(weights) picks, wherever it starts within Go's int, a backend
      that stays willing gets at least its weight, one if that is unset, whatever happens
      to the others; and it gets exactly that if and only if, on every turn that is not
      its own, somebody willing stands before its next slot. */
  lemma WeightedShare(bs: seq<Entry>, slots: seq<string>, counter: nat, ms: seq<Moment>, k: nat)
    requires k < |bs| && DistinctUrls(bs) && Weighted(bs) && Blocks(bs, slots)
    requires slots != [] && |ms| == SlotsBefore(bs, |bs|) && counter + 2 * |slots| <= INT_MAX
    requires forall i :: 0 <= i < |ms| ==> Willing(ms[i], bs[k].url)
    ensures Tally(Picks(slots, counter, ms), Picked(bs[k].url)) >= bs[k].weight
    ensures Tally(Picks(slots, counter, ms), Picked(bs[k].url)) >= 1
    ensures Tally(Picks(slots, counter, ms), Picked(bs[k].url)) == (if bs[k].weight == 0 then 1 else bs[k].weight) <==>
            AlwaysShielded(slots, counter, ms, bs[k].url)
  {
    BlocksAreSlots(bs, slots);
    SlotsTally(bs, k);
    SlotsFrom(bs, bs[k].url);
    SharesOfSlots(slots, counter, ms, bs[k].url);
  }

  /** The documented case: when everybody stays willing, the split is exact. */
  lemma ExactWhenAllWilling(bs: seq<Entry>, slots: seq<string>, counter: nat, ms: seq<Moment>, k: nat)
    requires k < |bs| && DistinctUrls(bs) && Weighted(bs) && Blocks(bs, slots)
    requires slots != [] && |ms| == SlotsBefore(bs, |bs|) && counter + 2 * |slots| <= INT_MAX
    requires forall i, j :: 0 <= i < |ms| && 0 <= j < |bs| ==> Willing(ms[i], bs[j].url)
    ensures Tally(Picks(slots, counter, ms), Picked(bs[k].url)) == if bs[k].weight == 0 then 1 else bs[k].weight
  {
    var url := bs[k].url;
    BlocksAreSlots(bs, slots);
    forall i | 0 <= i < |ms| && Rotation(slots, counter)[i] != url
      ensures ShieldedAt(slots, counter, ms, url, i)
    {
      var order := Rotation(slots, counter + i);
      RotationAt(slots, counter, i);
      RotationAt(slots, counter + i, 0);
      SlotsFrom(bs, order[0]);
      assert Willing(ms[i], order[0]) && Absent(order, 0, url);
    }
    WeightedShare(bs, slots, counter, ms, k);
  }

  /** The documented split fails as soon as a backend goes away: with two of equal weight
      and the first one down, the second gets both picks of the window. */
  lemma SplitIsNotExact(bs: seq<Entry>, threshold: int, cooldown: int, m: Moment)
    requires bs == [Entry("a", 1), Entry("b", 1)]
    requires m.up == {"b"} && m.circuits == FreshCircuits(["a", "b"], threshold, cooldown)
    ensures Slots(bs) == ["a", "b"]
    ensures Tally(Picks(Slots(bs), 0, [m, m]), Picked("b")) == 2 && Share(bs[1]) == 1
  {
    assert Repeat("a", 1) == ["a"] + Repeat("a", 0) && Repeat("b", 1) == ["b"] + Repeat("b", 0);
    assert bs[1..] == [Entry("b", 1)] && bs[1..][1..] == [];
    assert Slots(bs[1..]) == ["b"];
    var slots, ms := ["a", "b"], [m, m];
    assert slots[0] == "a" && slots[1] == "b" && "a" != "b" && !Willing(m, "a") && Willing(m, "b");
    assert Rotation(slots, 0) == ["a", "b"] && Rotation(slots, 1) == ["b", "a"];
    forall i: nat | i < 2 ensures Picks(slots, 0, ms)[i] == Picked("b") {
      PickUnlessShielded(slots, 0, ms, "b", i);
    }
    assert Picks(slots, 0, ms) == [Picked("b"), Picked("b")];
    assert [Picked("b"), Picked("b")][1..] == [Picked("b")];
  }

  /** Past Go's int it fails even while everybody is willing: of two picks one panics. */
  lemma SplitPastInt(slots: seq<string>, threshold: int, cooldown: int, m: Moment)
    requires slots == ["a", "b"] && m.up == {"a", "b"} && m.circuits == FreshCircuits(slots, threshold, cooldown)
    ensures Picks(slots, INT_MAX + 1, [m, m]) == [Picked("a"), NoHealthyBackend]
    ensures ScanSlots(slots, INT_MAX + 2, m.circuits, m.up, m.now) == IndexPanic
  {
    var ms := [m, m];
    PicksAt(slots, INT_MAX + 1, ms, 0);
    PicksAt(slots, INT_MAX + 1, ms, 1);
    ScanPastInt(slots, INT_MAX + 1, m.circuits, m.up, m.now);
    ScanPastInt(slots, INT_MAX + 2, m.circuits, m.up, m.now);
    assert slots[0] == "a";
  }

  /** Round robin is the case of one slot each. */
  lemma RoundRobinShare(bs: seq<Entry>, counter: nat, ms: seq<Moment>, k: nat)
    requires k < |bs| && DistinctUrls(bs) && |ms| == |bs| && counter + 2 * |bs| <= INT_MAX
    requires forall i :: 0 <= i < |ms| ==> Willing(ms[i], bs[k].url)
    ensures Tally(Picks(Urls(bs), counter, ms), Picked(bs[k].url)) >= 1
    ensures Tally(Picks(Urls(bs), counter, ms), Picked(bs[k].url)) == 1 <==>
            AlwaysShielded(Urls(bs), counter, ms, bs[k].url)
  {
    var ones := seq(|bs|, i requires 0 <= i < |bs| => Entry(bs[i].url, 1));
    OneSlotEach(bs, ones);
    SlotsAreBlocks(ones);
    WeightedShare(ones, Urls(bs), counter, ms, k);
  }

  lemma {:induction false} OneSlotEach(bs: seq<Entry>, ones: seq<Entry>)
    requires |ones| == |bs| && forall i :: 0 <= i < |bs| ==> ones[i] == Entry(bs[i].url, 1)
    ensures Slots(ones) == Urls(bs)
    decreases |bs|
  {
    if bs != [] {
      var n := |bs| - 1;
      OneSlotEach(bs[..n], ones[..n]);
      SlotsSnoc(ones, n);
      assert ones[..n + 1] == ones;
      assert Repeat(bs[n].url, 1) == [bs[n].url] + Repeat(bs[n].url, 0);
    }
  }

  // ---- de-duplicated slots ----

  lemma {:induction false} DistinctAppend(s: seq<string>, url: string, n: nat)
    requires url !in s && n >= 1
    ensures Distinct(s + Repeat(url, n)) == Distinct(s) + [url]
  {
    RepeatSnoc(url, n - 1);
    var t := s + Repeat(url, n);
    assert t[..|t| - 1] == s + Repeat(url, n - 1) && t[|t| - 1] == url;
    if n == 1 {
      assert s + Repeat(url, 0) == s;
    } else {
      DistinctAppend(s, url, n - 1);
    }
  }

  lemma NotBefore(bs: seq<Entry>)
    requires bs != [] && DistinctUrls(bs) && forall j :: 0 <= j < |bs| ==> bs[j].weight >= 0
    ensures bs[|bs| - 1].url !in Slots(bs[..|bs| - 1])
  {
    SlotsFrom(bs[..|bs| - 1], bs[|bs| - 1].url);
  }

  /** Backends() of a weighted balancer gives back the list it was built from. */
  lemma {:induction false} DistinctSlots(bs: seq<Entry>)
    requires DistinctUrls(bs) && forall j :: 0 <= j < |bs| ==> bs[j].weight >= 0
    ensures Distinct(Slots(bs)) == Urls(bs)
    decreases |bs|
  {
    if bs != [] {
      var n := |bs| - 1;
      DistinctSlots(bs[..n]);
      SlotsSnoc(bs, n);
      assert bs[..n + 1] == bs;
      NotBefore(bs);
      DistinctAppend(Slots(bs[..n]), bs[n].url, Share(bs[n]));
    }
  }

  // ---- least connections ----

  function Load(conns: map<string, int>, b: string): int {
    if b in conns then conns[b] else 0
  }

  /** `i` is the first backend with the smallest load. */
  predicate FirstMinimum(healthy: seq<string>, conns: map<string, int>, i: int) {
    && 0 <= i < |healthy|
    && (forall j :: 0 <= j < |healthy| ==> Load(conns, healthy[i]) <= Load(conns, healthy[j]))
    && (forall j :: 0 <= j < i ==> Load(conns, healthy[i]) < Load(conns, healthy[j]))
  }

  /** The sentinel does no harm: no count is negative, or only the last one matters. */
  predicate SentinelSafe(healthy: seq<string>, conns: map<string, int>) {
    || (forall j :: 0 <= j < |healthy| ==> Load(conns, healthy[j]) >= 0)
    || (forall j :: 0 <= j < |healthy| - 1 ==>
          Load(conns, healthy[|healthy| - 1]) < Load(conns, healthy[j]))
  }

  /** The running best is a real candidate, and its count goes negative exactly when the
      last candidate's does. */
  lemma {:induction false} BestIsCandidate(healthy: seq<string>, conns: map<string, int>)
    requires healthy != []
    ensures var best, last := LeastLoaded(healthy, conns), healthy[|healthy| - 1];
      && best.url in healthy && best.count == Load(conns, best.url)
      && (best.count < 0 <==> Load(conns, last) < 0)
      && (Load(conns, last) < 0 ==> best.url == last)
  {
    if |healthy| > 1 {
      BestIsCandidate(healthy[..|healthy| - 1], conns);
    }
  }

  lemma {:induction false} BestOfNonNegative(healthy: seq<string>, conns: map<string, int>) returns (i: int)
    requires healthy != [] && forall j :: 0 <= j < |healthy| ==> Load(conns, healthy[j]) >= 0
    ensures FirstMinimum(healthy, conns, i) && LeastLoaded(healthy, conns).url == healthy[i]
  {
    var n := |healthy|;
    if n == 1 {
      i := 0;
    } else {
      var before := healthy[..n - 1];
      i := BestOfNonNegative(before, conns);
      BestIsCandidate(before, conns);
      assert healthy[i] == before[i];
      if Load(conns, healthy[n - 1]) < Load(conns, before[i]) {
        i := n - 1;
        forall j | 0 <= j < n - 1 ensures Load(conns, healthy[n - 1]) < Load(conns, healthy[j]) {
          assert healthy[j] == before[j];
        }
      } else {
        forall j | 0 <= j < n ensures Load(conns, healthy[i]) <= Load(conns, healthy[j]) {
          if j < n - 1 {
            assert healthy[j] == before[j];
          }
        }
      }
    }
  }

  predicate PicksFirstMinimum(healthy: seq<string>, conns: map<string, int>) {
    exists i :: 0 <= i < |healthy| && FirstMinimum(healthy, conns, i) && LeastLoaded(healthy, conns).url == healthy[i]
  }

  /** A negative count that is not the last is passed over for whatever comes next. */
  lemma SentinelSkips(healthy: seq<string>, conns: map<string, int>, j: nat)
    requires j < |healthy| - 1 && Load(conns, healthy[j]) < 0 <= Load(conns, healthy[|healthy| - 1])
    ensures !PicksFirstMinimum(healthy, conns)
  {
    BestIsCandidate(healthy, conns);
    forall i | FirstMinimum(healthy, conns, i) ensures LeastLoaded(healthy, conns).url != healthy[i] {
      assert Load(conns, healthy[i]) <= Load(conns, healthy[j]);
    }
  }

  lemma SentinelTakesLast(healthy: seq<string>, conns: map<string, int>)
    requires healthy != [] && Load(conns, healthy[|healthy| - 1]) < 0
    requires forall i, j :: 0 <= i < j < |healthy| ==> healthy[i] != healthy[j]
    ensures PicksFirstMinimum(healthy, conns) <==> SentinelSafe(healthy, conns)
  {
    var last := |healthy| - 1;
    BestIsCandidate(healthy, conns);
    if PicksFirstMinimum(healthy, conns) {
      var i :| 0 <= i < |healthy| && FirstMinimum(healthy, conns, i) && LeastLoaded(healthy, conns).url == healthy[i];
      assert i == last;
    }
    if SentinelSafe(healthy, conns) {
      assert FirstMinimum(healthy, conns, last);
    }
  }

  /** The scan returns the first backend with the fewest connections exactly when the
      sentinel does no harm: with a negative count among the candidates it is wrong
      unless that count is the last one and the strict minimum. */
  lemma LeastLoadedExactly(healthy: seq<string>, conns: map<string, int>)
    requires healthy != [] && forall i, j :: 0 <= i < j < |healthy| ==> healthy[i] != healthy[j]
    ensures PicksFirstMinimum(healthy, conns) <==> SentinelSafe(healthy, conns)
  {
    if forall j :: 0 <= j < |healthy| ==> Load(conns, healthy[j]) >= 0 {
      var i := BestOfNonNegative(healthy, conns);
    } else if Load(conns, healthy[|healthy| - 1]) < 0 {
      SentinelTakesLast(healthy, conns);
    } else {
      var j :| 0 <= j < |healthy| && Load(conns, healthy[j]) < 0;
      SentinelSkips(healthy, conns, j);
    }
  }
}
