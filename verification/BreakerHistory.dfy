/** The state of a breaker read off its history: which events were trips, how long the
    run of failures is and whether a trial is out are defined on the events alone, and
    the breaker is proved to agree. A reload that keeps the backend is one of the events:
    the history goes on, under new limits. */
module BreakerHistory {
  import opened Breaker

  datatype Event = Ask(at: int) | Success | Failure(at: int) | Reload(threshold: int, cooldown: int)

  function Step(c: Circuit, e: Event): Circuit {
    match e
    case Ask(at) => Asked(c, at)
    case Success => Succeeded(c)
    case Failure(at) => Failed(c, at)
    case Reload(threshold, cooldown) => Inherit(NewCircuit(threshold, cooldown), c)
  }

  /** The threshold in force after the events of `h`. */
  function ThresholdAfter(h: seq<Event>, threshold: int): int {
    if h == [] then threshold
    else if h[|h| - 1].Reload? then h[|h| - 1].threshold else ThresholdAfter(h[..|h| - 1], threshold)
  }

  function CooldownAfter(h: seq<Event>, cooldown: int): int {
    if h == [] then cooldown
    else if h[|h| - 1].Reload? then h[|h| - 1].cooldown else CooldownAfter(h[..|h| - 1], cooldown)
  }

  /** A new breaker after the events of `h`. */
  function After(h: seq<Event>, threshold: int, cooldown: int): Circuit {
    if h == [] then NewCircuit(threshold, cooldown)
    else Step(After(h[..|h| - 1], threshold, cooldown), h[|h| - 1])
  }

  /** Event `a` asks once the cooldown that began at event `t` is over, by the cooldown
      then in force. */
  predicate Cooled(h: seq<Event>, cooldown: int, t: int, a: int) {
    0 <= t < a < |h| && h[t].Failure? && h[a].Ask? && h[a].at - h[t].at >= CooldownAfter(h[..a], cooldown)
  }

  predicate Recording(e: Event) {
    e.Success? || e.Failure?
  }

  /** Nobody has asked since the cooldown that began at event `t` ran out. */
  ghost predicate Quiet(h: seq<Event>, cooldown: int, t: int) {
    forall a :: !Cooled(h, cooldown, t, a)
  }

  predicate Granted(h: seq<Event>, cooldown: int, t: int, a: int) {
    Cooled(h, cooldown, t, a) && forall j :: t < j < a ==> !Cooled(h, cooldown, t, j)
  }

  /** The trial granted after trip `t` is still out: nothing has been recorded since. */
  predicate TrialOut(h: seq<Event>, cooldown: int, t: int) {
    exists a :: t < a < |h| && Granted(h, cooldown, t, a) && forall j :: a < j < |h| ==> !Recording(h[j])
  }

  /** Event `i` is a failure that opens the circuit: it completes a run of as many failures
      as the threshold then in force, or the trial was out when it came. */
  ghost predicate TripAt(h: seq<Event>, threshold: int, cooldown: int, i: nat)
    decreases i, 2
  {
    && i < |h| && h[i].Failure?
    && (|| Streak(h[..i], threshold, cooldown) + 1 >= ThresholdAfter(h[..i], threshold)
        || OnTrial(h[..i], threshold, cooldown))
  }

  ghost predicate LastTrip(h: seq<Event>, threshold: int, cooldown: int, t: nat)
    decreases |h|, 0
  {
    && t < |h| && h[t].Failure? && TripAt(h, threshold, cooldown, t)
    && forall j :: t < j < |h| ==> !TripAt(h, threshold, cooldown, j)
  }

  /** The trial after the last trip is out. */
  ghost predicate OnTrial(h: seq<Event>, threshold: int, cooldown: int)
    decreases |h|, 1
  {
    exists t: nat :: LastTrip(h, threshold, cooldown, t) && TrialOut(h, cooldown, t)
  }

  /** The failures at the end of `h` since the last success or trip. */
  ghost function Streak(h: seq<Event>, threshold: int, cooldown: int): nat
    decreases |h|, 0
  {
    if h == [] then 0
    else if Resets(h, threshold, cooldown, |h| - 1) then 0
    else Streak(h[..|h| - 1], threshold, cooldown) + if h[|h| - 1].Failure? then 1 else 0
  }

  /** Event `i` starts the run of failures afresh. */
  ghost predicate Resets(h: seq<Event>, threshold: int, cooldown: int, i: nat)
    decreases i, 3
  {
    i < |h| && (h[i].Success? || TripAt(h, threshold, cooldown, i))
  }

  ghost predicate StateFits(h: seq<Event>, threshold: int, cooldown: int, c: Circuit) {
    && (c.state != Closed ==> exists t: nat :: LastTrip(h, threshold, cooldown, t))
    && forall t: nat :: LastTrip(h, threshold, cooldown, t) ==>
         FitsTrip(h, cooldown, t, c)
  }

  ghost predicate FitsTrip(h: seq<Event>, cooldown: int, t: int, c: Circuit)
    requires 0 <= t < |h| && h[t].Failure?
  {
    && c.openAt == h[t].at
    && (c.state == Open <==> Quiet(h, cooldown, t))
    && (c.state == HalfOpen <==> TrialOut(h, cooldown, t))
  }

  /** The breaker after `h` is what the events say it is. */
  ghost predicate Agrees(h: seq<Event>, threshold: int, cooldown: int) {
    var c := After(h, threshold, cooldown);
    && c.threshold == ThresholdAfter(h, threshold) && c.cooldown == CooldownAfter(h, cooldown)
    && StateFits(h, threshold, cooldown, c)
    && c.fails == Streak(h, threshold, cooldown)
  }

  /** No reload of `h` sets a threshold above `most`. */
  predicate NeverAbove(h: seq<Event>, most: int) {
    forall i :: 0 <= i < |h| && h[i].Reload? ==> h[i].threshold <= most
  }

  lemma TripPrefix(g: seq<Event>, e: Event, threshold: int, cooldown: int, i: nat)
    requires i < |g|
    ensures TripAt(g + [e], threshold, cooldown, i) == TripAt(g, threshold, cooldown, i)
  {
    assert (g + [e])[..i] == g[..i];
  }

  lemma OnTrialIsHalfOpen(h: seq<Event>, threshold: int, cooldown: int)
    requires StateFits(h, threshold, cooldown, After(h, threshold, cooldown))
    ensures OnTrial(h, threshold, cooldown) <==> After(h, threshold, cooldown).state == HalfOpen
  {
  }

  /** A failure is a trip by the events exactly if the breaker trips on it. */
  lemma TripNow(g: seq<Event>, e: Event, threshold: int, cooldown: int)
    requires Agrees(g, threshold, cooldown)
    ensures TripAt(g + [e], threshold, cooldown, |g|) <==> e.Failure? && Trips(After(g, threshold, cooldown))
  {
    assert (g + [e])[..|g|] == g;
    OnTrialIsHalfOpen(g, threshold, cooldown);
  }

  lemma AfterSnoc(g: seq<Event>, e: Event, threshold: int, cooldown: int)
    ensures After(g + [e], threshold, cooldown) == Step(After(g, threshold, cooldown), e)
  {
    assert (g + [e])[..|g|] == g;
  }

  /** An event that does not trip leaves the last trip where it was. */
  lemma LastTripSnoc(g: seq<Event>, e: Event, threshold: int, cooldown: int, t: nat)
    requires Agrees(g, threshold, cooldown) && !(e.Failure? && Trips(After(g, threshold, cooldown)))
    ensures LastTrip(g + [e], threshold, cooldown, t) <==> LastTrip(g, threshold, cooldown, t)
  {
    TripNow(g, e, threshold, cooldown);
    forall i: nat | i < |g|
      ensures TripAt(g + [e], threshold, cooldown, i) == TripAt(g, threshold, cooldown, i)
    {
      TripPrefix(g, e, threshold, cooldown, i);
    }
  }

  lemma CooledSnoc(g: seq<Event>, e: Event, cooldown: int, t: int, a: int)
    requires a < |g|
    ensures Cooled(g + [e], cooldown, t, a) == Cooled(g, cooldown, t, a)
  {
    if 0 <= a {
      assert (g + [e])[..a] == g[..a];
    }
  }

  lemma GrantedSnoc(g: seq<Event>, e: Event, cooldown: int, t: int, a: int)
    requires a < |g|
    ensures Granted(g + [e], cooldown, t, a) == Granted(g, cooldown, t, a)
  {
    forall j | j < |g| ensures Cooled(g + [e], cooldown, t, j) == Cooled(g, cooldown, t, j) {
      CooledSnoc(g, e, cooldown, t, j);
    }
  }

  /** One more event, no trip: how the trial after `t` moves. */
  lemma TrialSnoc(g: seq<Event>, e: Event, cooldown: int, t: int)
    requires 0 <= t < |g| && g[t].Failure?
    ensures var over := e.Ask? && e.at - g[t].at >= CooldownAfter(g, cooldown);
      && (Quiet(g + [e], cooldown, t) <==> Quiet(g, cooldown, t) && !over)
      && (TrialOut(g + [e], cooldown, t) <==>
            !Recording(e) && (TrialOut(g, cooldown, t) || (Quiet(g, cooldown, t) && over)))
  {
    var h, over := g + [e], e.Ask? && e.at - g[t].at >= CooldownAfter(g, cooldown);
    forall a | a < |g| ensures Cooled(h, cooldown, t, a) == Cooled(g, cooldown, t, a) {
      CooledSnoc(g, e, cooldown, t, a);
    }
    forall a | a < |g| ensures Granted(h, cooldown, t, a) == Granted(g, cooldown, t, a) {
      GrantedSnoc(g, e, cooldown, t, a);
    }
    assert h[..|g|] == g;
    assert Cooled(h, cooldown, t, |g|) == over;
    if !Recording(e) && TrialOut(g, cooldown, t) {
      var a :| t < a < |g| && Granted(g, cooldown, t, a) && forall j :: a < j < |g| ==> !Recording(g[j]);
      assert Granted(h, cooldown, t, a) && forall j :: a < j < |h| ==> !Recording(h[j]);
    }
    if Quiet(g, cooldown, t) && over {
      assert Granted(h, cooldown, t, |g|);
    }
    if TrialOut(h, cooldown, t) {
      var a :| t < a < |h| && Granted(h, cooldown, t, a) && forall j :: a < j < |h| ==> !Recording(h[j]);
      if a < |g| {
        assert h[|g|] == e;
        forall j | a < j < |g| ensures !Recording(g[j]) {
          assert h[j] == g[j];
        }
        assert TrialOut(g, cooldown, t);
      } else {
        forall j ensures !Cooled(g, cooldown, t, j) {
          assert t < j < |g| ==> !Cooled(h, cooldown, t, j);
        }
      }
    }
  }

  lemma FitsAfterTrip(g: seq<Event>, e: Event, threshold: int, cooldown: int)
    requires Agrees(g, threshold, cooldown) && e.Failure? && Trips(After(g, threshold, cooldown))
    ensures StateFits(g + [e], threshold, cooldown, After(g + [e], threshold, cooldown))
  {
    var h := g + [e];
    AfterSnoc(g, e, threshold, cooldown);
    TripNow(g, e, threshold, cooldown);
    assert LastTrip(h, threshold, cooldown, |g|);
    assert forall t: nat :: LastTrip(h, threshold, cooldown, t) ==> t == |g|;
  }

  lemma FitsStep(g: seq<Event>, e: Event, cooldown: int, t: int, c: Circuit)
    requires 0 <= t < |g| && g[t].Failure? && c.cooldown == CooldownAfter(g, cooldown) && FitsTrip(g, cooldown, t, c)
    requires !(e.Failure? && Trips(c))
    ensures FitsTrip(g + [e], cooldown, t, Step(c, e))
  {
    TrialSnoc(g, e, cooldown, t);
    if TrialOut(g, cooldown, t) {
      NotBoth(g, cooldown, t);
    }
  }

  lemma NotBoth(h: seq<Event>, cooldown: int, t: int)
    requires TrialOut(h, cooldown, t)
    ensures !Quiet(h, cooldown, t)
  {
    var a :| t < a < |h| && Granted(h, cooldown, t, a) && forall j :: a < j < |h| ==> !Recording(h[j]);
    assert Cooled(h, cooldown, t, a);
  }

  lemma FitsOtherwise(g: seq<Event>, e: Event, threshold: int, cooldown: int)
    requires Agrees(g, threshold, cooldown) && !(e.Failure? && Trips(After(g, threshold, cooldown)))
    ensures StateFits(g + [e], threshold, cooldown, After(g + [e], threshold, cooldown))
  {
    var h, c := g + [e], After(g, threshold, cooldown);
    AfterSnoc(g, e, threshold, cooldown);
    forall t: nat ensures LastTrip(h, threshold, cooldown, t) <==> LastTrip(g, threshold, cooldown, t) {
      LastTripSnoc(g, e, threshold, cooldown, t);
    }
    forall t: nat | LastTrip(h, threshold, cooldown, t) ensures FitsTrip(h, cooldown, t, Step(c, e)) {
      assert LastTrip(g, threshold, cooldown, t);
      FitsStep(g, e, cooldown, t, c);
    }
  }

  lemma StreakSnoc(g: seq<Event>, e: Event, threshold: int, cooldown: int)
    requires Agrees(g, threshold, cooldown)
    ensures var c := After(g + [e], threshold, cooldown);
      && c.fails == Streak(g + [e], threshold, cooldown)
      && c.threshold == ThresholdAfter(g + [e], threshold) && c.cooldown == CooldownAfter(g + [e], cooldown)
  {
    assert (g + [e])[..|g|] == g;
    AfterSnoc(g, e, threshold, cooldown);
    TripNow(g, e, threshold, cooldown);
  }

  /** The breaker is exactly what its history says, across reloads. It is open when nobody
      has asked since the cooldown of the last trip ran out, half-open when somebody has
      and nothing was recorded since, closed otherwise; the failure count is the run of
      failures since the last success or trip, which a reload does not interrupt; and the
      limits are those of the last reload. */
  lemma {:induction false} HistoryDecides(h: seq<Event>, threshold: int, cooldown: int)
    ensures Agrees(h, threshold, cooldown)
    decreases |h|
  {
    if h != [] {
      var g, e := h[..|h| - 1], h[|h| - 1];
      assert h == g + [e];
      HistoryDecides(g, threshold, cooldown);
      AfterSnoc(g, e, threshold, cooldown);
      StreakSnoc(g, e, threshold, cooldown);
      if e.Failure? && Trips(After(g, threshold, cooldown)) {
        FitsAfterTrip(g, e, threshold, cooldown);
      } else {
        FitsOtherwise(g, e, threshold, cooldown);
      }
    }
  }

  /** The failure count stays below the highest threshold there has been; without a reload
      that is the threshold itself. */
  lemma {:induction false} BelowThreshold(h: seq<Event>, threshold: int, cooldown: int, most: int)
    requires 1 <= most && threshold <= most && NeverAbove(h, most)
    ensures After(h, threshold, cooldown).fails < most && After(h, threshold, cooldown).threshold <= most
    decreases |h|
  {
    if h != [] {
      BelowThreshold(h[..|h| - 1], threshold, cooldown, most);
    }
  }

  /** The breaker opens, by its own counter and state, on exactly the events that are
      trips by the history. */
  lemma TripsExactly(h: seq<Event>, threshold: int, cooldown: int, i: nat)
    requires i < |h|
    ensures TripAt(h, threshold, cooldown, i) <==> h[i].Failure? && Trips(After(h[..i], threshold, cooldown))
  {
    HistoryDecides(h[..i], threshold, cooldown);
    OnTrialIsHalfOpen(h[..i], threshold, cooldown);
  }

  /** The failures of `h` from event `p` on. */
  ghost function FailuresFrom(h: seq<Event>, p: nat): set<nat> {
    set i: nat | p <= i < |h| && h[i].Failure?
  }

  /** What the run is: the number of failures since the last event that resets it. */
  lemma {:induction false} StreakMeans(h: seq<Event>, threshold: int, cooldown: int) returns (p: nat)
    ensures p <= |h| && (p == 0 || Resets(h, threshold, cooldown, p - 1))
    ensures forall i :: p <= i < |h| ==> !Resets(h, threshold, cooldown, i)
    ensures Streak(h, threshold, cooldown) == |FailuresFrom(h, p)|
    decreases |h|
  {
    if h == [] || Resets(h, threshold, cooldown, |h| - 1) {
      p := |h|;
      assert FailuresFrom(h, p) == {};
    } else {
      var g, e := h[..|h| - 1], h[|h| - 1];
      p := StreakMeans(g, threshold, cooldown);
      assert h == g + [e];
      forall i: nat | i < |g| ensures Resets(h, threshold, cooldown, i) == Resets(g, threshold, cooldown, i) {
        TripPrefix(g, e, threshold, cooldown, i);
      }
      FailuresSnoc(g, e, p);
    }
  }

  lemma FailuresSnoc(g: seq<Event>, e: Event, p: nat)
    requires p <= |g|
    ensures |FailuresFrom(g + [e], p)| == |FailuresFrom(g, p)| + if e.Failure? then 1 else 0
  {
    assert FailuresFrom(g + [e], p) == FailuresFrom(g, p) + if e.Failure? then {|g|} else {};
  }
}
