/** The hysteresis of active health probing (internal/health/scheduler.go): one probe
    loop over an arbitrary sequence of check results. */
module Probe {

  datatype Thresholds = Thresholds(healthy: int, unhealthy: int)

  /** The state writer called with `healthy` after the check numbered `at`. */
  datatype Write = Write(at: nat, healthy: bool)

  function Wanted(t: Thresholds, ok: bool): int {
    if ok then t.healthy else t.unhealthy
  }

  /** A threshold below one acts like one: nothing is decided before a check. */
  function Needed(t: Thresholds, ok: bool): (n: nat)
    ensures n >= 1 && n >= Wanted(t, ok)
  {
    if Wanted(t, ok) < 1 then 1 else Wanted(t, ok)
  }

  /** How many of the first `n` results in a row, counted from the end, equal `ok`. */
  function Trail(results: seq<bool>, n: nat, ok: bool): (r: nat)
    requires n <= |results|
    ensures r <= n
  {
    if n == 0 || results[n - 1] != ok then 0 else 1 + Trail(results, n - 1, ok)
  }

  /** The check numbered `k` ends a run of `ok` long enough to decide. */
  predicate Decides(t: Thresholds, results: seq<bool>, k: nat, ok: bool)
    requires k < |results|
  {
    Trail(results, k + 1, ok) >= Needed(t, ok)
  }

  /** After `n` checks the backend counts as down: a long enough run of failures ended
      at some point and no long enough run of successes has ended since. */
  ghost predicate Down(t: Thresholds, results: seq<bool>, n: nat)
    requires n <= |results|
  {
    exists k :: 0 <= k < n && Decides(t, results, k, false) && StaysDown(t, results, k, n)
  }

  predicate StaysDown(t: Thresholds, results: seq<bool>, k: nat, n: nat)
    requires n <= |results|
  {
    forall j :: k < j < n ==> !Decides(t, results, j, true)
  }

  lemma DownStep(t: Thresholds, results: seq<bool>, n: nat)
    requires n < |results|
    ensures Down(t, results, n + 1) <==>
            Decides(t, results, n, false) || (Down(t, results, n) && !Decides(t, results, n, true))
  {
    if Decides(t, results, n, false) {
      assert StaysDown(t, results, n, n + 1);
    } else if Down(t, results, n) && !Decides(t, results, n, true) {
      var k :| 0 <= k < n && Decides(t, results, k, false) && StaysDown(t, results, k, n);
      assert StaysDown(t, results, k, n + 1);
    } else if Down(t, results, n + 1) {
      var k :| 0 <= k < n + 1 && Decides(t, results, k, false) && StaysDown(t, results, k, n + 1);
    }
  }

  /** A trail of at least `m` is `m` equal results at the end. */
  lemma {:induction false} TrailMeans(results: seq<bool>, n: nat, ok: bool, m: nat)
    requires m <= n <= |results|
    ensures Trail(results, n, ok) >= m <==> forall j :: n - m <= j < n ==> results[j] == ok
  {
    if m > 0 && results[n - 1] == ok {
      TrailMeans(results, n - 1, ok, m - 1);
    }
  }

  // ---- what the list of writes says ----

  /** Writes alternate and the first says unhealthy. */
  predicate Alternates(ws: seq<Write>) {
    forall i :: 0 <= i < |ws| ==> Opposes(ws, i)
  }

  predicate Opposes(ws: seq<Write>, i: nat)
    requires i < |ws|
  {
    ws[i].healthy == !Written(ws, i)
  }

  /** The verdict standing before write `i`. */
  predicate Written(ws: seq<Write>, i: nat)
    requires i <= |ws|
  {
    i == 0 || ws[i - 1].healthy
  }

  /** Each write ends a run of exactly the length its threshold asks for. */
  predicate OnTime(t: Thresholds, results: seq<bool>, ws: seq<Write>) {
    forall i :: 0 <= i < |ws| ==>
      ws[i].at < |results| && Trail(results, ws[i].at + 1, ws[i].healthy) == Needed(t, ws[i].healthy)
  }

  /** The position of write `i`, counted from one; before the first write it is zero. */
  function Position(ws: seq<Write>, i: nat): nat
    requires i <= |ws|
  {
    if i == 0 then 0 else ws[i - 1].at + 1
  }

  predicate Spaced(t: Thresholds, ws: seq<Write>) {
    forall i :: 0 <= i < |ws| ==> SpacedAt(t, ws, i)
  }

  predicate SpacedAt(t: Thresholds, ws: seq<Write>, i: nat)
    requires i < |ws|
  {
    Position(ws, i) + Needed(t, ws[i].healthy) <= ws[i].at + 1
  }

  /** After each of the first `n` checks there is a write exactly if the verdict moved. */
  ghost predicate AtChanges(t: Thresholds, results: seq<bool>, n: nat, ws: seq<Write>)
    requires n <= |results|
  {
    && (forall i :: 0 <= i < |ws| ==> ws[i].at < n)
    && forall k :: 0 <= k < n ==> (WrittenAt(ws, k) <==> Down(t, results, k) != Down(t, results, k + 1))
  }

  ghost predicate WrittenAt(ws: seq<Write>, k: nat) {
    exists i :: 0 <= i < |ws| && ws[i].at == k
  }

  /** What the loop knows after `n` checks. */
  ghost predicate Track(t: Thresholds, results: seq<bool>, n: nat, healthy: bool, ws: seq<Write>)
    requires n <= |results|
  {
    && healthy == !Down(t, results, n)
    && healthy == Written(ws, |ws|)
    && Trail(results, n, !healthy) < Needed(t, !healthy)
    && Trail(results, n, !healthy) <= n - Position(ws, |ws|)
    && Alternates(ws) && OnTime(t, results, ws) && Spaced(t, ws)
    && AtChanges(t, results, n, ws)
  }

  lemma ChangesQuiet(t: Thresholds, results: seq<bool>, n: nat, ws: seq<Write>)
    requires n < |results| && AtChanges(t, results, n, ws) && Down(t, results, n) == Down(t, results, n + 1)
    ensures AtChanges(t, results, n + 1, ws)
  {
  }

  lemma ChangesWrite(t: Thresholds, results: seq<bool>, n: nat, ws: seq<Write>, w: Write)
    requires n < |results| && AtChanges(t, results, n, ws) && Down(t, results, n) != Down(t, results, n + 1)
    requires w.at == n
    ensures AtChanges(t, results, n + 1, ws + [w])
  {
    var ws' := ws + [w];
    assert ws'[|ws|].at == n;
    forall k | 0 <= k < n ensures WrittenAt(ws', k) <==> WrittenAt(ws, k) {
      if WrittenAt(ws, k) {
        var i :| 0 <= i < |ws| && ws[i].at == k;
        assert ws'[i].at == k;
      }
    }
  }

  /** A check that decides nothing new. */
  lemma TrackQuiet(t: Thresholds, results: seq<bool>, n: nat, healthy: bool, ws: seq<Write>)
    requires n < |results| && Track(t, results, n, healthy, ws) && !Decides(t, results, n, !healthy)
    ensures Track(t, results, n + 1, healthy, ws)
  {
    DownStep(t, results, n);
    ChangesQuiet(t, results, n, ws);
  }

  lemma AlternatesOn(ws: seq<Write>, w: Write)
    requires Alternates(ws) && w.healthy == !Written(ws, |ws|)
    ensures Alternates(ws + [w])
  {
    forall i | 0 <= i <= |ws| ensures Opposes(ws + [w], i) {
      assert i < |ws| ==> Opposes(ws, i);
    }
  }

  lemma OnTimeOn(t: Thresholds, results: seq<bool>, ws: seq<Write>, w: Write)
    requires OnTime(t, results, ws) && w.at < |results|
    requires Trail(results, w.at + 1, w.healthy) == Needed(t, w.healthy)
    ensures OnTime(t, results, ws + [w])
  {
  }

  lemma SpacedOn(t: Thresholds, ws: seq<Write>, w: Write)
    requires Spaced(t, ws) && Position(ws, |ws|) + Needed(t, w.healthy) <= w.at + 1
    ensures Spaced(t, ws + [w])
  {
    forall i | 0 <= i <= |ws| ensures SpacedAt(t, ws + [w], i) {
      assert i < |ws| ==> SpacedAt(t, ws, i);
    }
  }

  lemma TrackWrite(t: Thresholds, results: seq<bool>, n: nat, healthy: bool, ws: seq<Write>)
    requires n < |results| && Track(t, results, n, healthy, ws) && Decides(t, results, n, !healthy)
    ensures Track(t, results, n + 1, !healthy, ws + [Write(n, !healthy)])
  {
    DownStep(t, results, n);
    ChangesWrite(t, results, n, ws, Write(n, !healthy));
    AlternatesOn(ws, Write(n, !healthy));
    OnTimeOn(t, results, ws, Write(n, !healthy));
    SpacedOn(t, ws, Write(n, !healthy));
  }

  /** The probe loop. Whatever the checks say, the backend is written down or up exactly
      when the verdict changes, writes alternate starting with unhealthy, and each comes
      at the very check that completes its run. */
  method Probe(t: Thresholds, results: seq<bool>) returns (writes: seq<Write>)
    ensures Alternates(writes) && OnTime(t, results, writes) && Spaced(t, writes)
    ensures AtChanges(t, results, |results|, writes)
    ensures forall i :: 0 <= i < |writes| && !writes[i].healthy ==>
      Trail(results, writes[i].at + 1, false) == if t.unhealthy < 1 then 1 else t.unhealthy
    ensures forall i :: 0 <= i < |writes| && writes[i].healthy ==>
      Trail(results, writes[i].at + 1, true) == if t.healthy < 1 then 1 else t.healthy
    ensures Written(writes, |writes|) <==> !Down(t, results, |results|)
  {
    var consecutiveOK, consecutiveFail := 0, 0;
    var currentHealthy := true;
    writes := [];
    for n := 0 to |results|
      invariant consecutiveOK == Trail(results, n, true) && consecutiveFail == Trail(results, n, false)
      invariant Track(t, results, n, currentHealthy, writes)
    {
      ghost var was, ws := currentHealthy, writes;
      if results[n] {
        consecutiveOK := consecutiveOK + 1;
        consecutiveFail := 0;
        if !currentHealthy && consecutiveOK >= t.healthy {
          currentHealthy := true;
          writes := writes + [Write(n, true)];
        }
      } else {
        consecutiveFail := consecutiveFail + 1;
        consecutiveOK := 0;
        if currentHealthy && consecutiveFail >= t.unhealthy {
          currentHealthy := false;
          writes := writes + [Write(n, false)];
        }
      }
      if Decides(t, results, n, !was) {
        TrackWrite(t, results, n, was, ws);
      } else {
        TrackQuiet(t, results, n, was, ws);
      }
    }
  }

  /** Flapping costs probes: 2k writes need k full runs of failures and k full runs of
      successes. */
  lemma {:induction false} FlappingIsBounded(t: Thresholds, ws: seq<Write>, k: nat)
    requires Alternates(ws) && Spaced(t, ws) && 2 * k <= |ws|
    ensures Position(ws, 2 * k) >= k * (Needed(t, true) + Needed(t, false))
    ensures Written(ws, 2 * k)
  {
    if k > 0 {
      var i := 2 * (k - 1);
      FlappingIsBounded(t, ws, k - 1);
      TwoWrites(t, ws, i);
    }
  }

  lemma TwoWrites(t: Thresholds, ws: seq<Write>, i: nat)
    requires Alternates(ws) && Spaced(t, ws) && i + 2 <= |ws| && Written(ws, i)
    ensures Written(ws, i + 2)
    ensures Position(ws, i + 2) >= Position(ws, i) + Needed(t, true) + Needed(t, false)
  {
    assert Opposes(ws, i) && Opposes(ws, i + 1);
    assert SpacedAt(t, ws, i) && SpacedAt(t, ws, i + 1);
  }

  /** So in `results` checks at most that many writes are made. */
  lemma ProbesNeeded(t: Thresholds, results: seq<bool>, ws: seq<Write>, k: nat)
    requires Alternates(ws) && OnTime(t, results, ws) && Spaced(t, ws) && |ws| >= 2 * k
    ensures |results| >= k * (Needed(t, true) + Needed(t, false))
  {
    FlappingIsBounded(t, ws, k);
  }
}
