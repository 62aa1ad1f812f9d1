/** The five balancing strategies (internal/balancer/balancer.go). */
module Balancer {
  import opened Breaker
  import opened HealthChecker
  import opened Arithmetic
  import opened Maps
  import opened Seqs

  datatype Entry = Entry(url: string, weight: int)

  datatype Pick = NoHealthyBackend | Picked(url: string)

  /** How a scan ends. A slot index outside the slot list stops the request with Go's
      index panic; nothing has been picked then. */
  datatype Scan = Done(pick: Pick) | IndexPanic

  /** What the request loop gets: a panic ends the request like a failed pick. */
  function Landed(scan: Scan): Pick {
    if scan.Done? then scan.pick else NoHealthyBackend
  }

  datatype Error = NoBackends | InvalidWeight | UnknownStrategy

  datatype Result<T> = Ok(value: T) | Err(error: Error)

  function Urls(bs: seq<Entry>): (us: seq<string>)
    ensures |us| == |bs| && forall i :: 0 <= i < |bs| ==> us[i] == bs[i].url
  {
    if bs == [] then [] else Urls(bs[..|bs| - 1]) + [bs[|bs| - 1].url]
  }

  // ---- rotations ----

  /** `s` read cyclically from position `k`. */
  function Rotation<T>(s: seq<T>, k: nat): (r: seq<T>)
    requires s != []
    ensures |r| == |s|
  {
    s[k % |s|..] + s[..k % |s|]
  }

  lemma RotationAt<T>(s: seq<T>, k: nat, i: nat)
    requires s != [] && i < |s|
    ensures Rotation(s, k)[i] == s[(k + i) % |s|]
  {
    var n := |s|;
    var r := k % n;
    var q := k / n;
    assert k == q * n + r;
    if r + i < n {
      Remainder(k + i, n, q, r + i);
    } else {
      assert k + i == q * n + (r + i);
      assert (q + 1) * n == q * n + n;
      Remainder(k + i, n, q + 1, r + i - n);
    }
  }

  const INT_MAX: int := 0x7fff_ffff_ffff_ffff

  /** A 64-bit unsigned value converted to Go's int. */
  function Wrapped(v: nat): int {
    var u := v % TWO64;
    if u <= INT_MAX then u else u - TWO64
  }

  /** Go's remainder takes the sign of the dividend. */
  function GoRemainder(x: int, n: nat): int
    requires n > 0
  {
    if x >= 0 then x % n else -((-x) % n)
  }

  /** The slot that try number `i` of a pick looks at. */
  function SlotIndex(start: nat, i: nat, n: nat): int
    requires n > 0
  {
    GoRemainder(Wrapped(start + i), n)
  }

  lemma WrappedIs(v: nat)
    requires v < TWO64
    ensures Wrapped(v) == if v <= INT_MAX then v else v - TWO64
  {
    Remainder(v, TWO64, 0, v);
  }

  /** The remainder of a negative number is negative, or zero. */
  lemma RemainderSign(x: int, n: nat)
    requires n > 0 && x > 0
    ensures 0 <= GoRemainder(-x, n) < n <==> x % n == 0
  {
    assert 0 <= x % n < n;
  }

  /** The index is in range, and the cyclic one, exactly as long as the counter stays
      within Go's int; beyond it the index is negative unless it happens to be zero. */
  lemma SlotIndexInRange(start: nat, i: nat, n: nat)
    requires n > 0 && start + i < TWO64
    ensures start + i <= INT_MAX ==> SlotIndex(start, i, n) == (start + i) % n
    ensures 0 <= SlotIndex(start, i, n) < n <==>
            start + i <= INT_MAX || (TWO64 - (start + i)) % n == 0
  {
    hide Wrapped;
    WrappedIs(start + i);
    if start + i > INT_MAX {
      RemainderSign(TWO64 - (start + i), n);
    }
  }

  // ---- scanning for the first backend that answers ----

  function FirstAnswering(order: seq<string>, cs: Circuits, up: set<string>, now: int): Pick {
    if order == [] then NoHealthyBackend
    else if Answers(cs, up, order[0], now) then Picked(order[0])
    else FirstAnswering(order[1..], cs, up, now)
  }

  /** The circuits after a scan: only the backend that was picked can have changed. */
  function AfterScan(cs: Circuits, pick: Pick, now: int): Circuits {
    if pick.Picked? then AskedFor(cs, pick.url, now) else cs
  }

  /** The scan as the code does it, slot index by slot index, from try number `i` on. */
  function ScanFrom(slots: seq<string>, start: nat, i: nat, cs: Circuits, up: set<string>, now: int): Scan
    requires i <= |slots|
    decreases |slots| - i
  {
    if i == |slots| then Done(NoHealthyBackend) else
    var k := SlotIndex(start, i, |slots|);
    if k < 0 then IndexPanic
    else if Answers(cs, up, slots[k], now) then Done(Picked(slots[k]))
    else ScanFrom(slots, start, i + 1, cs, up, now)
  }

  function ScanSlots(slots: seq<string>, start: nat, cs: Circuits, up: set<string>, now: int): Scan {
    ScanFrom(slots, start, 0, cs, up, now)
  }

  lemma {:induction false} ScanFromRotation(
    slots: seq<string>, start: nat, i: nat, order: seq<string>, cs: Circuits, up: set<string>, now: int)
    requires slots != [] && i <= |slots| && start + |slots| <= INT_MAX && order == Rotation(slots, start)
    ensures ScanFrom(slots, start, i, cs, up, now) == Done(FirstAnswering(order[i..], cs, up, now))
    decreases |slots| - i
  {
    if i < |slots| {
      SlotIndexInRange(start, i, |slots|);
      RotationAt(slots, start, i);
      assert order[i..][1..] == order[i + 1..];
      ScanFromRotation(slots, start, i + 1, order, cs, up, now);
    }
  }

  /** While the counter stays within Go's int, the scan is one turn around the slots from
      the counter's position, and it does not panic. */
  lemma ScanIsRotation(slots: seq<string>, start: nat, cs: Circuits, up: set<string>, now: int)
    requires slots != [] && start + |slots| <= INT_MAX
    ensures ScanSlots(slots, start, cs, up, now) == Done(FirstAnswering(Rotation(slots, start), cs, up, now))
  {
    var order := Rotation(slots, start);
    ScanFromRotation(slots, start, 0, order, cs, up, now);
    assert order[0..] == order;
  }

  /** Beyond it only the first slot can ever be picked, and only by one pick in every
      |slots|: every other pick panics at its first or second try. */
  lemma ScanPastInt(slots: seq<string>, start: nat, cs: Circuits, up: set<string>, now: int)
    requires |slots| > 1 && INT_MAX < start && start + 1 < TWO64
    ensures ScanSlots(slots, start, cs, up, now) ==
            if (TWO64 - start) % |slots| == 0 && Answers(cs, up, slots[0], now)
            then Done(Picked(slots[0])) else IndexPanic
  {
    var n := |slots|;
    SlotIndexInRange(start, 0, n);
    if (TWO64 - start) % n == 0 {
      var q := (TWO64 - start) / n;
      assert TWO64 - start - 1 == (q - 1) * n + (n - 1);
      Remainder(TWO64 - start - 1, n, q - 1, n - 1);
      SlotIndexInRange(start, 1, n);
      assert ScanFrom(slots, start, 1, cs, up, now) == IndexPanic;
    }
  }

  /** The loop of round_robin and ip_hash: from position `start`, once around. */
  method Walk(urls: seq<string>, start: nat, hc: Checker, now: int) returns (scan: Scan)
    modifies hc.registry
    ensures scan == ScanSlots(urls, start, old(hc.registry.breakers), old(hc.UpAmong(urls, now)), now)
    ensures hc.registry.breakers == AfterScan(old(hc.registry.breakers), Landed(scan), now)
  {
    ghost var cs, up := hc.registry.breakers, hc.UpAmong(urls, now);
    var n := |urls|;
    var i := 0;
    while i < n
      invariant 0 <= i <= n
      invariant hc.registry.breakers == cs && hc.UpAmong(urls, now) == up
      invariant ScanFrom(urls, start, i, cs, up, now) == ScanSlots(urls, start, cs, up, now)
    {
      var k := SlotIndex(start, i, n);
      if k < 0 {
        return IndexPanic;
      }
      var url := urls[k];
      hc.Among(urls, url, now);
      var ok := hc.IsAvailable(url, now);
      if ok {
        return Done(Picked(url));
      }
      RefusalIsFree(cs, up, url, now);
      i := i + 1;
    }
    scan := Done(NoHealthyBackend);
  }

  // ---- round robin ----

  class RoundRobin {
    const backends: seq<string>
    var counter: nat

    constructor (bs: seq<Entry>)
      requires bs != []
      ensures backends == Urls(bs) && counter == 0
    {
      backends, counter := Urls(bs), 0;
    }

    method Next(hc: Checker, now: int) returns (scan: Scan)
      modifies this, hc.registry
      ensures counter == old(counter) + 1
      ensures scan == ScanSlots(backends, old(counter), old(hc.registry.breakers), old(hc.UpAmong(backends, now)), now)
      ensures backends != [] && old(counter) + |backends| <= INT_MAX ==>
        scan == Done(FirstAnswering(Rotation(backends, old(counter)), old(hc.registry.breakers),
                                    old(hc.UpAmong(backends, now)), now))
      ensures hc.registry.breakers == AfterScan(old(hc.registry.breakers), Landed(scan), now)
    {
      var start := counter;
      counter := counter + 1;
      ghost var cs, up := hc.registry.breakers, hc.UpAmong(backends, now);
      scan := Walk(backends, start, hc, now);
      if backends != [] && start + |backends| <= INT_MAX {
        ScanIsRotation(backends, start, cs, up, now);
      }
    }
  }

  // ---- weighted round robin ----

  function Share(e: Entry): int {
    if e.weight == 0 then 1 else e.weight
  }

  /** Each URL repeated as often as its weight says, an unset weight counting as one. */
  function Slots(bs: seq<Entry>): seq<string> {
    if bs == [] then [] else Repeat(bs[0].url, Share(bs[0])) + Slots(bs[1..])
  }

  function Repeat(url: string, n: int): (s: seq<string>)
    ensures |s| == if n < 0 then 0 else n
    ensures forall i :: 0 <= i < |s| ==> s[i] == url
  {
    if n <= 0 then [] else [url] + Repeat(url, n - 1)
  }

  lemma SlotsCons(e: Entry, bs: seq<Entry>)
    ensures Slots([e] + bs) == Repeat(e.url, Share(e)) + Slots(bs)
  {
    assert ([e] + bs)[1..] == bs;
  }

  lemma {:induction false} SlotsSnoc(bs: seq<Entry>, i: nat)
    requires i < |bs|
    ensures Slots(bs[..i + 1]) == Slots(bs[..i]) + Repeat(bs[i].url, Share(bs[i]))
  {
    var last := Repeat(bs[i].url, Share(bs[i]));
    if i == 0 {
      assert bs[..1] == [bs[0]] + [] && bs[..0] == [];
      SlotsCons(bs[0], []);
      assert last + [] == last && [] + last == last;
    } else {
      var tail := bs[1..];
      SlotsSnoc(tail, i - 1);
      assert bs[..i + 1] == [bs[0]] + tail[..i] && bs[..i] == [bs[0]] + tail[..i - 1];
      SlotsCons(bs[0], tail[..i]);
      SlotsCons(bs[0], tail[..i - 1]);
      Regroup(Repeat(bs[0].url, Share(bs[0])), Slots(tail[..i - 1]), last);
    }
  }

  lemma {:induction false} RepeatSnoc(url: string, n: nat)
    ensures Repeat(url, n + 1) == Repeat(url, n) + [url]
  {
    if n > 0 {
      RepeatSnoc(url, n - 1);
    }
  }

  /** How many slots the first `k` entries take: each its weight, an unset weight one. */
  function SlotsBefore(bs: seq<Entry>, k: nat): int
    requires k <= |bs|
  {
    if k == 0 then 0 else SlotsBefore(bs, k - 1) + if bs[k - 1].weight == 0 then 1 else bs[k - 1].weight
  }

  /** Entry `k` fills the block of slots after those of the entries before it. */
  ghost predicate Block(bs: seq<Entry>, slots: seq<string>, k: nat)
    requires k < |bs|
  {
    forall i :: SlotsBefore(bs, k) <= i < SlotsBefore(bs, k + 1) && 0 <= i < |slots| ==> slots[i] == bs[k].url
  }

  /** The slots are the blocks of the entries, in order, and nothing else. */
  ghost predicate Blocks(bs: seq<Entry>, slots: seq<string>) {
    |slots| == SlotsBefore(bs, |bs|) && forall k :: 0 <= k < |bs| ==> Block(bs, slots, k)
  }

  predicate Weighted(bs: seq<Entry>) {
    forall i :: 0 <= i < |bs| ==> bs[i].weight >= 0
  }

  lemma {:induction false} SlotsBeforeGrows(bs: seq<Entry>, k: nat, n: nat)
    requires k <= n <= |bs| && Weighted(bs)
    ensures 0 <= SlotsBefore(bs, k) <= SlotsBefore(bs, n)
    decreases n
  {
    if k < n {
      SlotsBeforeGrows(bs, k, n - 1);
    } else if k > 0 {
      SlotsBeforeGrows(bs, k - 1, n - 1);
    }
  }

  lemma BlockStays(bs: seq<Entry>, slots: seq<string>, more: seq<string>, k: nat)
    requires k < |bs| && Block(bs, slots, k) && SlotsBefore(bs, k + 1) <= |slots|
    ensures Block(bs, slots + more, k)
  {
  }

  lemma NewBlock(bs: seq<Entry>, slots: seq<string>, k: nat)
    requires k < |bs| && |slots| == SlotsBefore(bs, k) && bs[k].weight >= 0
    ensures Block(bs, slots + Repeat(bs[k].url, Share(bs[k])), k)
    ensures |slots + Repeat(bs[k].url, Share(bs[k]))| == SlotsBefore(bs, k + 1)
  {
  }

  lemma {:induction false} BlocksSoFar(bs: seq<Entry>, n: nat)
    requires n <= |bs| && Weighted(bs)
    ensures |Slots(bs[..n])| == SlotsBefore(bs, n)
    ensures forall k :: 0 <= k < n ==> Block(bs, Slots(bs[..n]), k)
  {
    hide Block, Share, Repeat, SlotsBefore;
    if n > 0 {
      BlocksSoFar(bs, n - 1);
      SlotsSnoc(bs, n - 1);
      var before := Slots(bs[..n - 1]);
      NewBlock(bs, before, n - 1);
      forall k | 0 <= k < n - 1 ensures Block(bs, Slots(bs[..n]), k) {
        SlotsBeforeGrows(bs, k + 1, n - 1);
        BlockStays(bs, before, Repeat(bs[n - 1].url, Share(bs[n - 1])), k);
      }
    } else {
      NoSlots(bs);
    }
  }

  lemma NoSlots(bs: seq<Entry>)
    ensures |Slots(bs[..0])| == SlotsBefore(bs, 0)
  {
    assert bs[..0] == [];
  }

  lemma SlotsAreBlocks(bs: seq<Entry>)
    requires Weighted(bs)
    ensures Blocks(bs, Slots(bs))
  {
    BlocksSoFar(bs, |bs|);
    assert bs[..|bs|] == bs;
  }

  lemma {:induction false} BlockOf(bs: seq<Entry>, n: nat, i: int) returns (k: nat)
    requires n <= |bs| && 0 <= i < SlotsBefore(bs, n)
    ensures k < n && SlotsBefore(bs, k) <= i < SlotsBefore(bs, k + 1)
  {
    if i < SlotsBefore(bs, n - 1) {
      k := BlockOf(bs, n - 1, i);
    } else {
      k := n - 1;
    }
  }

  /** There is one such list of slots. */
  lemma BlocksAreSlots(bs: seq<Entry>, slots: seq<string>)
    requires Weighted(bs) && Blocks(bs, slots)
    ensures slots == Slots(bs)
  {
    SlotsAreBlocks(bs);
    forall i | 0 <= i < |slots| ensures slots[i] == Slots(bs)[i] {
      var k := BlockOf(bs, |bs|, i);
      assert Block(bs, slots, k) && Block(bs, Slots(bs), k);
    }
  }

  /** NewWeightedRoundRobin's slot list: each entry's URL fills a block of as many slots
      as its weight, one if it is unset, in entry order. An empty list and a negative
      weight are rejected. */
  method BuildSlots(bs: seq<Entry>) returns (r: Result<seq<string>>)
    ensures bs == [] ==> r == Err(NoBackends)
    ensures bs != [] && (exists i :: 0 <= i < |bs| && bs[i].weight < 0) ==> r == Err(InvalidWeight)
    ensures bs != [] && Weighted(bs) ==> r == Ok(Slots(bs)) && Blocks(bs, r.value)
  {
    if |bs| == 0 {
      return Err(NoBackends);
    }
    var slots: seq<string> := [];
    for i := 0 to |bs|
      invariant forall j :: 0 <= j < i ==> bs[j].weight >= 0
      invariant slots == Slots(bs[..i])
    {
      var w := bs[i].weight;
      if w < 0 {
        return Err(InvalidWeight);
      }
      if w == 0 {
        w := 1;
      }
      ghost var before := slots;
      for j := 0 to w
        invariant slots == before + Repeat(bs[i].url, j)
      {
        slots := slots + [bs[i].url];
        RepeatSnoc(bs[i].url, j);
      }
      SlotsSnoc(bs, i);
    }
    assert bs[..|bs|] == bs;
    SlotsAreBlocks(bs);
    r := Ok(slots);
  }

  /** The first occurrences in `s`, in order. */
  function Distinct(s: seq<string>): (d: seq<string>)
    ensures forall x :: x in d <==> x in s
  {
    if s == [] then []
    else
      var d := Distinct(s[..|s| - 1]);
      var last := s[|s| - 1];
      assert s == s[..|s| - 1] + [last];
      if last in d then d else d + [last]
  }

  /** The loop of weighted round robin. A URL that was refused is not asked again in the
      same pick; the answer is still what asking every slot in turn would give. */
  method WalkOnce(slots: seq<string>, start: nat, hc: Checker, now: int) returns (scan: Scan)
    modifies hc.registry
    ensures scan == ScanSlots(slots, start, old(hc.registry.breakers), old(hc.UpAmong(slots, now)), now)
    ensures hc.registry.breakers == AfterScan(old(hc.registry.breakers), Landed(scan), now)
  {
    ghost var cs, up := hc.registry.breakers, hc.UpAmong(slots, now);
    var n := |slots|;
    var seen: set<string> := {};
    var i := 0;
    while i < n
      invariant 0 <= i <= n
      invariant hc.registry.breakers == cs && hc.UpAmong(slots, now) == up
      invariant forall url :: url in seen ==> !Answers(cs, up, url, now)
      invariant ScanFrom(slots, start, i, cs, up, now) == ScanSlots(slots, start, cs, up, now)
    {
      var k := SlotIndex(start, i, n);
      if k < 0 {
        return IndexPanic;
      }
      var url := slots[k];
      if url !in seen {
        seen := seen + {url};
        hc.Among(slots, url, now);
        var ok := hc.IsAvailable(url, now);
        if ok {
          return Done(Picked(url));
        }
        RefusalIsFree(cs, up, url, now);
      }
      i := i + 1;
    }
    scan := Done(NoHealthyBackend);
  }

  class WeightedRoundRobin {
    const slots: seq<string>
    var counter: nat

    constructor (slots: seq<string>)
      requires slots != []
      ensures this.slots == slots && counter == 0
    {
      this.slots, counter := slots, 0;
    }

    method Next(hc: Checker, now: int) returns (scan: Scan)
      modifies this, hc.registry
      ensures counter == old(counter) + 1
      ensures scan == ScanSlots(slots, old(counter), old(hc.registry.breakers), old(hc.UpAmong(slots, now)), now)
      ensures slots != [] && old(counter) + |slots| <= INT_MAX ==>
        scan == Done(FirstAnswering(Rotation(slots, old(counter)), old(hc.registry.breakers),
                                    old(hc.UpAmong(slots, now)), now))
      ensures hc.registry.breakers == AfterScan(old(hc.registry.breakers), Landed(scan), now)
    {
      var start := counter;
      counter := counter + 1;
      ghost var cs, up := hc.registry.breakers, hc.UpAmong(slots, now);
      scan := WalkOnce(slots, start, hc, now);
      if slots != [] && start + |slots| <= INT_MAX {
        ScanIsRotation(slots, start, cs, up, now);
      }
    }

    method Backends() returns (out: seq<string>)
      ensures out == Distinct(slots)
    {
      var seen: set<string> := {};
      out := [];
      for i := 0 to |slots|
        invariant out == Distinct(slots[..i])
        invariant seen == set x | x in out
      {
        assert slots[..i + 1][..i] == slots[..i];
        if slots[i] !in seen {
          seen := seen + {slots[i]};
          out := out + [slots[i]];
        }
      }
      assert slots[..|slots|] == slots;
    }
  }

  // ---- surveys: strategies that ask every backend before they choose ----

  datatype Survey = Survey(healthy: seq<string>, circuits: Circuits)

  /** Everybody who answers yes, in order, and the circuits once all have been asked. */
  function AskAll(urls: seq<string>, cs: Circuits, up: set<string>, now: int): Survey {
    if urls == [] then Survey([], cs)
    else
      var b := urls[|urls| - 1];
      var before := AskAll(urls[..|urls| - 1], cs, up, now);
      Survey(before.healthy + if Answers(before.circuits, up, b, now) then [b] else [],
             Queried(before.circuits, up, b, now))
  }

  class Random {
    const backends: seq<string>

    constructor (bs: seq<Entry>)
      requires bs != []
      ensures backends == Urls(bs)
    {
      backends := Urls(bs);
    }

    /** `draw` is what the random source gives. */
    method Next(hc: Checker, now: int, draw: nat) returns (pick: Pick)
      modifies hc.registry
      ensures var all := AskAll(backends, old(hc.registry.breakers), old(hc.UpAmong(backends, now)), now);
        && hc.registry.breakers == all.circuits
        && pick == if all.healthy == [] then NoHealthyBackend else Picked(all.healthy[draw % |all.healthy|])
    {
      ghost var cs, up := hc.registry.breakers, hc.UpAmong(backends, now);
      var healthy: seq<string> := [];
      for i := 0 to |backends|
        invariant hc.UpAmong(backends, now) == up
        invariant AskAll(backends[..i], cs, up, now) == Survey(healthy, hc.registry.breakers)
      {
        assert backends[..i + 1][..i] == backends[..i];
        hc.Among(backends, backends[i], now);
        var ok := hc.IsAvailable(backends[i], now);
        if ok {
          healthy := healthy + [backends[i]];
        }
      }
      assert backends[..|backends|] == backends;
      if |healthy| == 0 {
        return NoHealthyBackend;
      }
      pick := Picked(healthy[draw % |healthy|]);
    }
  }

  // ---- least connections ----

  /** The running best of the scan, with the sentinel count -1 for "none yet". */
  datatype Best = Best(url: string, count: int)

  function Consider(best: Best, url: string, count: int): Best {
    if best.count < 0 || count < best.count then Best(url, count) else best
  }

  function LeastLoaded(healthy: seq<string>, conns: map<string, int>): Best {
    if healthy == [] then Best("", -1)
    else
      var b := healthy[|healthy| - 1];
      Consider(LeastLoaded(healthy[..|healthy| - 1], conns), b, if b in conns then conns[b] else 0)
  }

  function Chosen(best: Best): Pick {
    if best.url == "" then NoHealthyBackend else Picked(best.url)
  }

  function ZeroCounts(us: seq<string>): (m: map<string, int>)
    ensures forall b :: b in m <==> b in us
    ensures forall b :: b in m ==> m[b] == 0
  {
    if us == [] then map[]
    else
      assert us == us[..|us| - 1] + [us[|us| - 1]];
      ZeroCounts(us[..|us| - 1])[us[|us| - 1] := 0]
  }

  class LeastConnections {
    const backends: seq<string>
    var conns: map<string, int>

    ghost predicate Valid()
      reads this
    {
      forall b :: b in backends ==> b in conns
    }

    constructor (bs: seq<Entry>)
      requires bs != []
      ensures backends == Urls(bs)
      ensures conns == ZeroCounts(Urls(bs))
    {
      var us := Urls(bs);
      var cs: map<string, int> := map[];
      for i := 0 to |us|
        invariant cs == ZeroCounts(us[..i])
      {
        cs := cs[us[i] := 0];
        assert us[..i + 1][..i] == us[..i];
      }
      assert us[..|us|] == us;
      backends, conns := us, cs;
    }

    method Next(hc: Checker, now: int) returns (pick: Pick)
      requires Valid()
      modifies this, hc.registry
      ensures Valid()
      ensures var all := AskAll(backends, old(hc.registry.breakers), old(hc.UpAmong(backends, now)), now);
        && hc.registry.breakers == all.circuits
        && pick == Chosen(LeastLoaded(all.healthy, old(conns)))
      ensures conns == if pick.Picked? && pick.url in old(conns)
                       then old(conns)[pick.url := old(conns)[pick.url] + 1] else old(conns)
    {
      ghost var cs, up := hc.registry.breakers, hc.UpAmong(backends, now);
      ghost var healthy: seq<string> := [];
      var best, bestCount := "", -1;
      for i := 0 to |backends|
        invariant hc.UpAmong(backends, now) == up && conns == old(conns)
        invariant AskAll(backends[..i], cs, up, now) == Survey(healthy, hc.registry.breakers)
        invariant LeastLoaded(healthy, conns) == Best(best, bestCount)
        invariant best == "" || best in backends
      {
        assert backends[..i + 1][..i] == backends[..i];
        hc.Among(backends, backends[i], now);
        var ok := hc.IsAvailable(backends[i], now);
        if !ok {
          continue;
        }
        var c := conns[backends[i]];
        if bestCount < 0 || c < bestCount {
          best, bestCount := backends[i], c;
        }
        assert (healthy + [backends[i]])[..|healthy|] == healthy;
        healthy := healthy + [backends[i]];
      }
      assert backends[..|backends|] == backends;
      if best == "" {
        return NoHealthyBackend;
      }
      conns := conns[best := conns[best] + 1];
      pick := Picked(best);
    }

    method Done(backend: string)
      modifies this
      ensures conns == if backend in old(conns) then old(conns)[backend := old(conns)[backend] - 1] else old(conns)
    {
      if backend in conns {
        conns := conns[backend := conns[backend] - 1];
      }
    }

    /** Counts of backends known to both are taken over. */
    method CarryOverConns(counts: map<string, int>)
      modifies this
      ensures conns == Taken(old(conns), counts, old(conns).Keys)
    {
      ghost var was := conns;
      var todo := conns.Keys;
      ghost var done: set<string> := {};
      ghost var cur := was;
      TakenNone(was, counts);
      while todo != {}
        invariant done <= was.Keys && todo == was.Keys - done
        invariant conns == cur && cur == Taken(was, counts, done)
        decreases |todo|
      {
        var url :| url in todo;
        if url in counts {
          conns := conns[url := counts[url]];
        }
        TakenOneMore(was, counts, done, url);
        cur := conns;
        done, todo := done + {url}, todo - {url};
      }
      assert done == was.Keys;
    }
  }

  // ---- ip hash ----

  class IPHash {
    const backends: seq<string>
    var counter: nat

    constructor (bs: seq<Entry>)
      requires bs != []
      ensures backends == Urls(bs) && counter == 0
    {
      backends, counter := Urls(bs), 0;
    }

    /** `hash` is the 32-bit hash of the client address. */
    method NextForIP(hc: Checker, now: int, hash: nat) returns (pick: Pick)
      requires backends != [] && 2 * |backends| <= INT_MAX
      modifies hc.registry
      ensures pick == FirstAnswering(Rotation(backends, hash), old(hc.registry.breakers),
                                     old(hc.UpAmong(backends, now)), now)
      ensures hc.registry.breakers == AfterScan(old(hc.registry.breakers), pick, now)
    {
      var start := hash % |backends|;
      ghost var cs, up := hc.registry.breakers, hc.UpAmong(backends, now);
      Remainder(start, |backends|, 0, start);
      ScanIsRotation(backends, start, cs, up, now);
      var scan := Walk(backends, start, hc, now);
      pick := Landed(scan);
    }

    method Next(hc: Checker, now: int) returns (scan: Scan)
      modifies this, hc.registry
      ensures counter == old(counter) + 1
      ensures scan == ScanSlots(backends, old(counter), old(hc.registry.breakers), old(hc.UpAmong(backends, now)), now)
      ensures backends != [] && old(counter) + |backends| <= INT_MAX ==>
        scan == Done(FirstAnswering(Rotation(backends, old(counter)), old(hc.registry.breakers),
                                    old(hc.UpAmong(backends, now)), now))
      ensures hc.registry.breakers == AfterScan(old(hc.registry.breakers), Landed(scan), now)
    {
      var start := counter;
      counter := counter + 1;
      ghost var cs, up := hc.registry.breakers, hc.UpAmong(backends, now);
      scan := Walk(backends, start, hc, now);
      if backends != [] && start + |backends| <= INT_MAX {
        ScanIsRotation(backends, start, cs, up, now);
      }
    }
  }
}
