/** What holds over every run of the proxy. */
module GatewaySafety {
  import opened Breaker
  import opened Balancer
  import opened Engine
  import opened Proxy
  import opened Gateway

  // ---- requests and generations ----

  ghost predicate Orderly(g: Gateway) {
    && (g.live.Current? ==> Coherent(g.live.gen))
    && forall id :: id in g.requests ==> Sane(g.requests[id], g.maxRetries)
  }

  lemma PickNextCoherent(gen: Generation, up: set<string>, hint: nat, now: int)
    requires Coherent(gen)
    ensures Coherent(PickNext(gen, up, hint, now).gen)
  {
    var after := PickNext(gen, up, hint, now).gen;
    forall b ensures b in after.circuits <==> b in gen.circuits {
      PickNextAt(gen, up, hint, now, b);
    }
    PickNextAt(gen, up, hint, now, "");
  }

  lemma SurveyedCoherent(gen: Generation, up: set<string>, now: int)
    requires Coherent(gen)
    ensures Coherent(Surveyed(gen, up, now))
  {
  }

  /** A step that moves one request, to a sane state, and keeps the generation coherent. */
  lemma MoveOrderly(g: Gateway, g': Gateway, id: nat)
    requires Orderly(g) && g'.maxRetries == g.maxRetries
    requires id in g'.requests && g'.requests == g.requests[id := g'.requests[id]]
    requires Sane(g'.requests[id], g.maxRetries) && (g'.live.Current? ==> Coherent(g'.live.gen))
    ensures Orderly(g')
  {
  }

  lemma ChooseOrderly(g: Gateway, st: Step)
    requires Orderly(g) && st.Choose? && Enabled(g, st)
    ensures Orderly(Apply(g, st))
  {
    PickSane(g.requests[st.id], PickFor(g, st), g.maxRetries);
    if g.live.Current? {
      PickNextCoherent(g.live.gen, st.up, st.hint, g.now);
    }
    MoveOrderly(g, Apply(g, st), st.id);
  }

  lemma ReleasedCoherent(gen: Generation, b: string)
    requires Coherent(gen)
    ensures Coherent(gen.(bal := ReleasedBal(gen.bal, b)))
  {
  }

  lemma ReturnOrderly(g: Gateway, st: Step)
    requires Orderly(g) && st.Return? && Enabled(g, st)
    ensures Orderly(Apply(g, st))
  {
    ReturnSane(g.requests[st.id], st.outcome, g.maxRetries);
    if g.live.Current? {
      ReleasedCoherent(g.live.gen, g.requests[st.id].phase.backend);
    }
    MoveOrderly(g, Apply(g, st), st.id);
  }

  lemma RecordedCoherent(gen: Generation, b: string, ok: bool, now: int)
    requires Coherent(gen)
    ensures Coherent(gen.(circuits := Recorded(gen.circuits, b, ok, now)))
  {
  }

  lemma RecordOrderly(g: Gateway, st: Step)
    requires Orderly(g) && st.Record? && Enabled(g, st)
    ensures Orderly(Apply(g, st))
  {
    var p := g.requests[st.id].phase;
    RecordSane(g.requests[st.id], g.maxRetries);
    if g.live.Current? {
      RecordedCoherent(g.live.gen, p.backend, p.ok, g.now);
    }
    MoveOrderly(g, Apply(g, st), st.id);
  }

  lemma StepOrderly(g: Gateway, st: Step)
    requires Orderly(g)
    ensures Orderly(Apply(g, st))
  {
    if Enabled(g, st) {
      match st
      case Tick(_) =>
      case Arrive(id, idempotent) =>
        StartSane(idempotent, g.maxRetries);
        MoveOrderly(g, Apply(g, st), id);
      case Choose(_, _, _) => ChooseOrderly(g, st);
      case Return(_, _) => ReturnOrderly(g, st);
      case Record(_) => RecordOrderly(g, st);
      case Rebuild(cfg, discovered) => RebuildIsCoherent(g.live, cfg, discovered);
      case Readyz(up) =>
        if g.live.Current? {
          SurveyedCoherent(g.live.gen, up, g.now);
        }
    }
  }

  /** In every run the published generation is coherent, and every request pairs its
      calls and stays within its attempts. */
  lemma {:induction false} RunOrderly(g: Gateway, steps: seq<Step>)
    requires Orderly(g)
    ensures Orderly(Run(g, steps))
    decreases |steps|
  {
    if steps != [] {
      StepOrderly(g, steps[0]);
      RunOrderly(Apply(g, steps[0]), steps[1..]);
    }
  }

  // ---- the trial slot ----

  /** Some request holds an attempt on `b` that will still be reported. */
  ghost predicate Held(g: Gateway, b: string) {
    exists id :: id in g.requests && HeldBy(g.requests[id], b)
  }

  predicate HeldBy(r: Request, b: string) {
    (r.phase.Calling? || r.phase.Recording?) && r.phase.backend == b
  }

  ghost predicate HalfOpenAt(g: Gateway, b: string) {
    g.live.Current? && b in g.live.gen.circuits && g.live.gen.circuits[b].state == HalfOpen
  }

  /** No trial slot has leaked: every half-open backend has an attempt out on it. */
  ghost predicate SlotsHeld(g: Gateway) {
    forall b {:trigger HalfOpenAt(g, b)} :: HalfOpenAt(g, b) ==> Held(g, b)
  }

  /** Requests other than `id` hold what they held. */
  lemma HeldByOthers(g: Gateway, g': Gateway, id: nat, b: string)
    requires Held(g, b)
    requires forall i :: i in g.requests && i != id ==> i in g'.requests && g'.requests[i] == g.requests[i]
    requires id in g.requests ==> !HeldBy(g.requests[id], b) || (id in g'.requests && HeldBy(g'.requests[id], b))
    ensures Held(g', b)
  {
    var i :| i in g.requests && HeldBy(g.requests[i], b);
    assert i in g'.requests && HeldBy(g'.requests[i], b);
  }

  /** A circuit this step's picking asks about turns half-open. */
  ghost predicate TakesTrial(g: Gateway, st: Step, b: string)
    requires st.Choose?
  {
    && g.live.Current? && b in g.live.gen.circuits
    && AsksAbout(g.live.gen, PickFor(g, st), st.up, b)
    && g.live.gen.circuits[b].state == Open && Admits(g.live.gen.circuits[b], g.now)
  }

  lemma ChooseHalfOpen(g: Gateway, st: Step, b: string)
    requires st.Choose? && Enabled(g, st)
    ensures HalfOpenAt(Apply(g, st), b) <==> HalfOpenAt(g, b) || TakesTrial(g, st, b)
  {
    if g.live.Current? {
      PickNextAt(g.live.gen, st.up, st.hint, g.now, b);
    }
  }

  lemma ChooseHeld(g: Gateway, st: Step, b: string)
    requires st.Choose? && Enabled(g, st)
    ensures Held(Apply(g, st), b) <==> Held(g, b) || PickFor(g, st) == Picked(b)
  {
    var g' := Apply(g, st);
    if Held(g, b) {
      HeldByOthers(g, g', st.id, b);
    }
    if PickFor(g, st) == Picked(b) {
      assert HeldBy(g'.requests[st.id], b);
    }
    if Held(g', b) && PickFor(g, st) != Picked(b) {
      HeldByOthers(g', g, st.id, b);
    }
  }

  /** When choosing keeps every trial slot accounted for, for all five strategies: every
      backend that is given its trial by this step is the one picked, or already has an
      attempt out on it. */
  lemma ChooseKeepsSlotsExactly(g: Gateway, st: Step)
    requires SlotsHeld(g) && st.Choose? && Enabled(g, st)
    ensures SlotsHeld(Apply(g, st)) <==>
            forall b {:trigger TakesTrial(g, st, b)} ::
              TakesTrial(g, st, b) ==> PickFor(g, st) == Picked(b) || Held(g, b)
  {
    var g' := Apply(g, st);
    forall b
      ensures HalfOpenAt(g', b) <==> HalfOpenAt(g, b) || TakesTrial(g, st, b)
      ensures Held(g', b) <==> Held(g, b) || PickFor(g, st) == Picked(b)
    {
      ChooseHalfOpen(g, st, b);
      ChooseHeld(g, st, b);
    }
    if SlotsHeld(g') {
      forall b | TakesTrial(g, st, b) ensures PickFor(g, st) == Picked(b) || Held(g, b) {
        assert HalfOpenAt(g', b);
      }
    } else {
      var b :| HalfOpenAt(g', b) && !Held(g', b);
      assert HalfOpenAt(g, b) || TakesTrial(g, st, b);
    }
  }

  lemma ArriveKeepsSlots(g: Gateway, st: Step)
    requires SlotsHeld(g) && st.Arrive? && Enabled(g, st)
    ensures SlotsHeld(Apply(g, st))
  {
    var g' := Apply(g, st);
    forall b | HalfOpenAt(g', b) ensures Held(g', b) {
      assert HalfOpenAt(g, b);
      HeldByOthers(g, g', st.id, b);
    }
  }

  lemma ReturnKeepsSlots(g: Gateway, st: Step)
    requires SlotsHeld(g) && st.Return? && Enabled(g, st)
    ensures SlotsHeld(Apply(g, st))
  {
    var g' := Apply(g, st);
    forall b | HalfOpenAt(g', b) ensures Held(g', b) {
      assert HalfOpenAt(g, b);
      HeldByOthers(g, g', st.id, b);
    }
  }

  /** A report always ends the trial it belongs to. */
  lemma RecordKeepsSlots(g: Gateway, st: Step)
    requires SlotsHeld(g) && st.Record? && Enabled(g, st)
    ensures SlotsHeld(Apply(g, st))
  {
    var g' := Apply(g, st);
    forall b | HalfOpenAt(g', b) ensures Held(g', b) {
      assert HalfOpenAt(g, b) && b != g.requests[st.id].phase.backend;
      HeldByOthers(g, g', st.id, b);
    }
  }

  /** A rebuild creates no half-open circuit: it only carries them over. */
  lemma RebuildHalfOpen(g: Gateway, st: Step, b: string)
    requires st.Rebuild? && HalfOpenAt(Apply(g, st), b)
    ensures HalfOpenAt(g, b)
  {
  }

  lemma RebuildKeepsSlots(g: Gateway, st: Step)
    requires SlotsHeld(g) && st.Rebuild?
    ensures SlotsHeld(Apply(g, st))
  {
    var g' := Apply(g, st);
    forall b | HalfOpenAt(g', b) ensures Held(g', b) {
      RebuildHalfOpen(g, st, b);
      assert HalfOpenAt(g, b) && g'.requests == g.requests;
    }
  }

  /** The readiness probe takes the trial slot of the first backend that answers, and
      nobody will ever report on it: it keeps the slots exactly when that backend was not
      open, or has an attempt out on it anyway. */
  lemma ReadyzKeepsSlotsExactly(g: Gateway, st: Step)
    requires SlotsHeld(g) && st.Readyz? && g.live.Current?
    ensures var gen := g.live.gen;
            var pick := FirstAnswering(gen.backends, gen.circuits, st.up, g.now);
      SlotsHeld(Apply(g, st)) <==>
      (pick.Picked? && pick.url in gen.circuits && gen.circuits[pick.url].state == Open ==> Held(g, pick.url))
  {
    var g', gen := Apply(g, st), g.live.gen;
    var pick := FirstAnswering(gen.backends, gen.circuits, st.up, g.now);
    ScanAnswers(gen.backends, gen.circuits, st.up, g.now);
    forall b
      ensures Held(g', b) <==> Held(g, b)
      ensures HalfOpenAt(g', b) <==>
              HalfOpenAt(g, b) || (pick == Picked(b) && b in gen.circuits && gen.circuits[b].state == Open)
    {
      assert g'.requests == g.requests;
    }
    if pick.Picked? && pick.url in gen.circuits && gen.circuits[pick.url].state == Open {
      assert HalfOpenAt(g', pick.url);
    }
  }

  /** Rebuilds into a scanning strategy, and no readiness probes. */
  predicate Scanning(steps: seq<Step>) {
    forall i :: 0 <= i < |steps| ==> ScanningStep(steps[i])
  }

  predicate ScanningStep(st: Step) {
    && !st.Readyz?
    && (st.Rebuild? ==> st.cfg.strategy in ["round_robin", "weighted_round_robin", "ip_hash"])
  }

  ghost predicate SlotsSafe(g: Gateway) {
    SlotsHeld(g) && (g.live.Current? ==> Scans(g.live.gen.bal))
  }

  lemma StepSlotsSafe(g: Gateway, st: Step)
    requires SlotsSafe(g) && ScanningStep(st)
    ensures SlotsSafe(Apply(g, st))
  {
    if Enabled(g, st) {
      match st
      case Tick(_) =>
        forall b | HalfOpenAt(Apply(g, st), b) ensures Held(Apply(g, st), b) {
          assert HalfOpenAt(g, b);
        }
      case Arrive(_, _) => ArriveKeepsSlots(g, st);
      case Choose(_, _, _) => ChooseKeepsSlotsExactly(g, st);
      case Return(_, _) => ReturnKeepsSlots(g, st);
      case Record(_) => RecordKeepsSlots(g, st);
      case Rebuild(_, _) => RebuildKeepsSlots(g, st);
    }
  }

  /** No leaked trial slot: under round_robin, weighted_round_robin and ip_hash, in any
      interleaving of requests and rebuilds, every half-open circuit has an attempt in
      flight that will still be reported. */
  lemma {:induction false} NoLeakedSlot(g: Gateway, steps: seq<Step>)
    requires SlotsSafe(g) && Scanning(steps)
    ensures SlotsSafe(Run(g, steps))
    decreases |steps|
  {
    if steps != [] {
      assert ScanningStep(steps[0]);
      StepSlotsSafe(g, steps[0]);
      forall i | 0 <= i < |steps| - 1 ensures ScanningStep(steps[1..][i]) {
        assert steps[1..][i] == steps[i + 1];
      }
      NoLeakedSlot(Apply(g, steps[0]), steps[1..]);
    }
  }

  /** In particular from the start: in every reachable state a half-open circuit has a
      request out on its backend. */
  lemma NoLeakFromTheStart(g: Gateway, steps: seq<Step>, b: string)
    requires Initial(g) && Scanning(steps) && HalfOpenAt(Run(g, steps), b)
    ensures exists id :: id in Run(g, steps).requests && HeldBy(Run(g, steps).requests[id], b)
  {
    forall b ensures !HalfOpenAt(g, b) {}
    NoLeakedSlot(g, steps);
    assert Held(Run(g, steps), b);
  }

  // ---- refused for as long as it takes ----

  /** `b` is in the pool after the step if it was before. */
  predicate Keeps(g: Gateway, st: Step, b: string) {
    st.Rebuild? ==>
      RebuildFails(st.cfg, st.discovered) || b in Urls(Pool(st.cfg.backends, st.discovered))
  }

  /** The step reports on `b`. */
  predicate Reports(g: Gateway, st: Step, b: string) {
    st.Record? && Enabled(g, st) && g.requests[st.id].phase.backend == b
  }

  /** No step of the run picks `b`. */
  predicate NeverPicked(g: Gateway, steps: seq<Step>, b: string)
    decreases |steps|
  {
    steps == [] ||
    ((steps[0].Choose? ==> PickFor(g, steps[0]) != Picked(b)) && NeverPicked(Apply(g, steps[0]), steps[1..], b))
  }

  /** A query about `b` would be turned down now, whatever health says. */
  predicate TurnsDown(g: Gateway, b: string) {
    g.live.Current? && b in g.live.gen.circuits && !Admits(g.live.gen.circuits[b], g.now)
  }

  /** It would be at every moment of the run, the last included. */
  predicate AlwaysTurnsDown(g: Gateway, steps: seq<Step>, b: string)
    decreases |steps|
  {
    TurnsDown(g, b) && (steps == [] || AlwaysTurnsDown(Apply(g, steps[0]), steps[1..], b))
  }

  predicate NeverReported(g: Gateway, steps: seq<Step>, b: string)
    decreases |steps|
  {
    steps == [] ||
    (Keeps(g, steps[0], b) && !Reports(g, steps[0], b) && NeverReported(Apply(g, steps[0]), steps[1..], b))
  }

  lemma HalfOpenStep(g: Gateway, st: Step, b: string)
    requires HalfOpenAt(g, b) && Keeps(g, st, b) && !Reports(g, st, b)
    ensures HalfOpenAt(Apply(g, st), b)
    ensures st.Choose? ==> PickFor(g, st) != Picked(b)
  {
    match st
    case Choose(_, up, hint) => PickNextAt(g.live.gen, up, hint, g.now, b);
    case Readyz(up) => ScanAnswers(g.live.gen.backends, g.live.gen.circuits, up, g.now);
    case _ =>
  }

  /** Once the trial has been given, every query is turned down and no request is sent
      there until the next report, across rebuilds that keep the backend. */
  lemma {:induction false} OneTrial(g: Gateway, steps: seq<Step>, b: string)
    requires HalfOpenAt(g, b) && NeverReported(g, steps, b)
    ensures HalfOpenAt(Run(g, steps), b) && NeverPicked(g, steps, b) && AlwaysTurnsDown(g, steps, b)
    decreases |steps|
  {
    if steps != [] {
      HalfOpenStep(g, steps[0], b);
      OneTrial(Apply(g, steps[0]), steps[1..], b);
    }
  }

  ghost predicate Stuck(g: Gateway, b: string) {
    HalfOpenAt(g, b) && !Held(g, b)
  }

  predicate AllKeep(g: Gateway, steps: seq<Step>, b: string)
    decreases |steps|
  {
    steps == [] || (Keeps(g, steps[0], b) && AllKeep(Apply(g, steps[0]), steps[1..], b))
  }

  lemma StuckStep(g: Gateway, st: Step, b: string)
    requires Stuck(g, b) && Keeps(g, st, b)
    ensures Stuck(Apply(g, st), b) && (st.Choose? ==> PickFor(g, st) != Picked(b))
  {
    assert !Reports(g, st, b) by {
      assert st.Record? && Enabled(g, st) ==> !HeldBy(g.requests[st.id], b);
    }
    HalfOpenStep(g, st, b);
  }

  /** A leaked slot is lost for good: the backend is never picked again, by any request,
      until a rebuild drops it from the pool. */
  lemma {:induction false} LeakIsForever(g: Gateway, steps: seq<Step>, b: string)
    requires Stuck(g, b) && AllKeep(g, steps, b)
    ensures Stuck(Run(g, steps), b) && NeverPicked(g, steps, b) && AlwaysTurnsDown(g, steps, b)
    decreases |steps|
  {
    if steps != [] {
      StuckStep(g, steps[0], b);
      LeakIsForever(Apply(g, steps[0]), steps[1..], b);
    }
  }

  /** Leaks do happen under the strategies that ask everybody: two backends whose
      cooldown is over are both given their trial by one pick. */
  lemma SurveyLeaks(g: Gateway, st: Step, a: string, b: string)
    requires SlotsHeld(g) && st.Choose? && Enabled(g, st) && a != b
    requires TakesTrial(g, st, a) && TakesTrial(g, st, b) && !Held(g, a) && !Held(g, b)
    ensures Stuck(Apply(g, st), a) || Stuck(Apply(g, st), b)
  {
    ChooseHalfOpen(g, st, a);
    ChooseHalfOpen(g, st, b);
    ChooseHeld(g, st, a);
    ChooseHeld(g, st, b);
  }

  // ---- cooldown ----

  /** `b` tripped at `since` or later and its cooldown is at least `cooldown`. */
  ghost predicate Cooling(g: Gateway, b: string, since: int, cooldown: int) {
    && since <= g.now && g.live.Current? && b in g.live.gen.circuits
    && var c := g.live.gen.circuits[b];
       c.state == Open && since <= c.openAt && cooldown <= c.cooldown
  }

  /** Rebuilds keep the backend and do not shorten the cooldown. */
  predicate KeepsCooldown(g: Gateway, steps: seq<Step>, b: string, cooldown: int)
    decreases |steps|
  {
    steps == [] ||
    (&& Keeps(g, steps[0], b) && (steps[0].Rebuild? ==> cooldown <= steps[0].cfg.cooldown)
     && KeepsCooldown(Apply(g, steps[0]), steps[1..], b, cooldown))
  }

  lemma CoolingStep(g: Gateway, st: Step, b: string, since: int, cooldown: int)
    requires Cooling(g, b, since, cooldown) && g.now < since + cooldown
    requires Keeps(g, st, b) && (st.Rebuild? ==> cooldown <= st.cfg.cooldown)
    ensures Cooling(Apply(g, st), b, since, cooldown)
    ensures st.Choose? ==> PickFor(g, st) != Picked(b)
  {
    match st
    case Choose(_, up, hint) => PickNextAt(g.live.gen, up, hint, g.now, b);
    case Readyz(up) => ScanAnswers(g.live.gen.backends, g.live.gen.circuits, up, g.now);
    case _ =>
  }

  lemma {:induction false} ClockNeverBack(g: Gateway, steps: seq<Step>)
    ensures g.now <= Run(g, steps).now
    decreases |steps|
  {
    if steps != [] {
      ClockNeverBack(Apply(g, steps[0]), steps[1..]);
    }
  }

  /** A failure report that trips the circuit starts the cooldown at that moment. */
  lemma TripStartsCooling(g: Gateway, st: Step, b: string)
    requires st.Record? && Reports(g, st, b) && !g.requests[st.id].phase.ok
    requires g.live.Current? && b in g.live.gen.circuits && Trips(g.live.gen.circuits[b])
    ensures Cooling(Apply(g, st), b, g.now, g.live.gen.circuits[b].cooldown)
  {
  }

  /** Cooldown safety across generations: after a trip at `since` every query about the
      backend is turned down, and no request is sent to it, before `since + cooldown`,
      whatever late successes, late failures, probes and rebuilds come between. */
  lemma {:induction false} CooldownIsRespected(g: Gateway, steps: seq<Step>, b: string, since: int, cooldown: int)
    requires Cooling(g, b, since, cooldown) && KeepsCooldown(g, steps, b, cooldown)
    requires Run(g, steps).now < since + cooldown
    ensures Cooling(Run(g, steps), b, since, cooldown)
    ensures NeverPicked(g, steps, b) && AlwaysTurnsDown(g, steps, b)
    decreases |steps|
  {
    ClockNeverBack(g, steps);
    if steps != [] {
      CoolingStep(g, steps[0], b, since, cooldown);
      CooldownIsRespected(Apply(g, steps[0]), steps[1..], b, since, cooldown);
    }
  }

  // ---- what the breaker does not see ----

  /** No circuit has tripped and no failure is about to be reported. */
  ghost predicate Unaware(g: Gateway) {
    && (forall id :: id in g.requests && g.requests[id].phase.Recording? ==> g.requests[id].phase.ok)
    && (g.live.Current? ==>
          forall b :: b in g.live.gen.circuits ==> g.live.gen.circuits[b].state == Closed)
  }

  /** Every call in the run is answered, whatever the status. */
  predicate AllAnswered(steps: seq<Step>) {
    forall i :: 0 <= i < |steps| ==> steps[i].Return? ==> steps[i].outcome.Response?
  }

  /** No request in `g` will be retried, whatever the answers. */
  predicate Unretried(g: Gateway) {
    g.maxRetries == 0 || forall id :: id in g.requests ==> !g.requests[id].idempotent
  }

  /** Nor will one that arrives in the run: retries are off, or its method is not one of
      the idempotent ones. */
  predicate NoRetries(g: Gateway, steps: seq<Step>) {
    && Unretried(g)
    && (g.maxRetries == 0 || forall i :: 0 <= i < |steps| && steps[i].Arrive? ==> !steps[i].idempotent)
  }

  lemma UnretriedStep(g: Gateway, st: Step)
    requires Unretried(g) && (g.maxRetries == 0 || (st.Arrive? ==> !st.idempotent))
    ensures Unretried(Apply(g, st)) && Apply(g, st).maxRetries == g.maxRetries
  {
  }

  lemma UnawareChoose(g: Gateway, st: Step)
    requires Unaware(g) && st.Choose? && Enabled(g, st)
    ensures Unaware(Apply(g, st))
  {
    if g.live.Current? {
      forall b
        ensures b in Apply(g, st).live.gen.circuits <==> b in g.live.gen.circuits
        ensures b in g.live.gen.circuits ==> Apply(g, st).live.gen.circuits[b].state == Closed
      {
        PickNextAt(g.live.gen, st.up, st.hint, g.now, b);
      }
    }
  }

  lemma UnawareStep(g: Gateway, st: Step)
    requires Unaware(g) && Unretried(g) && (st.Return? ==> st.outcome.Response?)
    ensures Unaware(Apply(g, st))
  {
    if st.Choose? && Enabled(g, st) {
      UnawareChoose(g, st);
    }
  }

  /** A backend that answers 502, 503 or 504 to everything is never taken out by requests
      that are not retried, POST for instance, or by any request when retries are off: no
      circuit ever leaves the closed state, whatever the threshold. */
  lemma {:induction false} ErrorStatusNeverTrips(g: Gateway, steps: seq<Step>)
    requires Unaware(g) && NoRetries(g, steps) && AllAnswered(steps)
    ensures Unaware(Run(g, steps))
    decreases |steps|
  {
    if steps != [] {
      UnawareStep(g, steps[0]);
      UnretriedStep(g, steps[0]);
      assert forall i :: 0 <= i < |steps| - 1 ==> steps[1..][i] == steps[i + 1];
      ErrorStatusNeverTrips(Apply(g, steps[0]), steps[1..]);
    }
  }
}
