/** The breaker behind one backend that answers every call with an error status, requests
    coming one at a time: the last attempt of each request is reported as a success, so
    the run of failures never gets longer than the retries. */
module OneBackend {
  import opened Breaker
  import opened HealthChecker
  import opened Balancer
  import opened Engine
  import opened Proxy
  import opened Gateway

  /** The balancer has `b` in its only slot. */
  predicate Solo(bal: Bal, b: string) {
    if bal.WeightedBal? then bal.slots == [b] else bal.urls == [b]
  }

  lemma OneSlot(b: string, start: nat, cs: Circuits, up: set<string>, now: int)
    requires Answers(cs, up, b, now)
    ensures ScanSlots([b], start, cs, up, now) == Done(Picked(b))
  {
    assert SlotIndex(start, 0, 1) == 0;
  }

  lemma OneAsked(b: string, cs: Circuits, up: set<string>, now: int)
    requires Answers(cs, up, b, now)
    ensures AskAll([b], cs, up, now).healthy == [b]
  {
    assert [b][..0] == [];
    assert AskAll([], cs, up, now) == Survey([], cs);
  }

  lemma OneLoad(b: string, conns: map<string, int>)
    requires b != ""
    ensures Chosen(LeastLoaded([b], conns)) == Picked(b)
  {
    assert [b][..0] == [];
    assert LeastLoaded([], conns) == Best("", -1);
  }

  /** As long as it is up and its circuit closed, `b` is picked, whatever the strategy. */
  lemma SoloPick(gen: Generation, up: set<string>, hint: nat, now: int, b: string)
    requires Solo(gen.bal, b) && b != "" && b in up && b in gen.circuits && gen.circuits[b].state == Closed
    ensures PickNext(gen, up, hint, now).pick == Picked(b) && Solo(PickNext(gen, up, hint, now).gen.bal, b)
  {
    match gen.bal
    case RoundRobinBal(_, counter) => OneSlot(b, counter, gen.circuits, up, now);
    case WeightedBal(_, counter) => OneSlot(b, counter, gen.circuits, up, now);
    case IPHashBal(_, _) => assert Rotation([b], hint) == [b];
    case RandomBal(_) => OneAsked(b, gen.circuits, up, now);
    case LeastBal(_, conns) =>
      OneAsked(b, gen.circuits, up, now);
      OneLoad(b, conns);
  }

  predicate Active(r: Request) {
    !r.phase.Finished?
  }

  /** An active request talks to `b`, has reported at least `fails` failures in a row, and
      is about to report another only if it still has an attempt left. */
  predicate Patient(r: Request, b: string, fails: int, maxRetries: nat) {
    && fails <= r.attempt <= maxRetries
    && match r.phase
       case Calling(c) => c == b
       case Recording(c, ok, again) => c == b && again == !ok && (!ok ==> r.idempotent && r.attempt < maxRetries)
       case _ => true
  }

  ghost predicate Calm(g: Gateway, b: string) {
    && b != "" && g.live.Current? && Solo(g.live.gen.bal, b) && b in g.live.gen.circuits
    && var c := g.live.gen.circuits[b];
       && c.state == Closed && 0 <= c.fails && g.maxRetries < c.threshold
       && (forall i, j :: i in g.requests && j in g.requests && Active(g.requests[i]) && Active(g.requests[j]) ==>
             i == j)
       && (forall i :: i in g.requests && Active(g.requests[i]) ==> Patient(g.requests[i], b, c.fails, g.maxRetries))
       && ((forall i :: i in g.requests ==> !Active(g.requests[i])) ==> c.fails == 0)
  }

  /** One request at a time, `b` up at every pick, every call answered, no reload. */
  predicate Quiet(g: Gateway, st: Step, b: string) {
    match st
    case Arrive(_, _) => forall i :: i in g.requests ==> !Active(g.requests[i])
    case Choose(_, up, _) => b in up
    case Return(_, outcome) => outcome.Response?
    case Rebuild(_, _) => false
    case _ => true
  }

  predicate AllQuiet(g: Gateway, steps: seq<Step>, b: string)
    decreases |steps|
  {
    steps == [] || (Quiet(g, steps[0], b) && AllQuiet(Apply(g, steps[0]), steps[1..], b))
  }

  /** What a step on the one active request has to do to keep calm. */
  lemma CalmMove(g: Gateway, g': Gateway, id: nat, b: string)
    requires Calm(g, b) && g'.maxRetries == g.maxRetries
    requires g'.live.Current? && Solo(g'.live.gen.bal, b) && b in g'.live.gen.circuits
    requires id in g'.requests && g'.requests == g.requests[id := g'.requests[id]]
    requires forall i :: i in g.requests && i != id ==> !Active(g.requests[i])
    requires var c, c' := g.live.gen.circuits[b], g'.live.gen.circuits[b];
      && c'.state == Closed && 0 <= c'.fails && c'.threshold == c.threshold
      && (if Active(g'.requests[id]) then Patient(g'.requests[id], b, c'.fails, g.maxRetries) else c'.fails == 0)
    ensures Calm(g', b)
  {
    forall i | i in g'.requests && i != id ensures !Active(g'.requests[i]) {
      assert g'.requests[i] == g.requests[i];
    }
  }

  lemma OthersIdle(g: Gateway, id: nat, b: string)
    requires Calm(g, b) && id in g.requests && Active(g.requests[id])
    ensures forall i :: i in g.requests && i != id ==> !Active(g.requests[i])
    ensures Patient(g.requests[id], b, g.live.gen.circuits[b].fails, g.maxRetries)
  {
  }

  lemma ChooseCalm(g: Gateway, st: Step, b: string)
    requires Calm(g, b) && st.Choose? && b in st.up && Enabled(g, st)
    ensures Calm(Apply(g, st), b)
  {
    OthersIdle(g, st.id, b);
    SoloPick(g.live.gen, st.up, st.hint, g.now, b);
    PickNextAt(g.live.gen, st.up, st.hint, g.now, b);
    CalmMove(g, Apply(g, st), st.id, b);
  }

  lemma ReturnCalm(g: Gateway, st: Step, b: string)
    requires Calm(g, b) && st.Return? && st.outcome.Response? && Enabled(g, st)
    ensures Calm(Apply(g, st), b)
  {
    OthersIdle(g, st.id, b);
    CalmMove(g, Apply(g, st), st.id, b);
  }

  lemma RecordCalm(g: Gateway, st: Step, b: string)
    requires Calm(g, b) && st.Record? && Enabled(g, st)
    ensures Calm(Apply(g, st), b)
  {
    OthersIdle(g, st.id, b);
    CalmMove(g, Apply(g, st), st.id, b);
  }

  lemma ArriveCalm(g: Gateway, st: Step, b: string)
    requires Calm(g, b) && st.Arrive? && Enabled(g, st) && Quiet(g, st, b)
    ensures Calm(Apply(g, st), b)
  {
    CalmMove(g, Apply(g, st), st.id, b);
  }

  lemma ReadyzCalm(g: Gateway, st: Step, b: string)
    requires Calm(g, b) && st.Readyz?
    ensures Calm(Apply(g, st), b)
  {
    ScanAnswers(g.live.gen.backends, g.live.gen.circuits, st.up, g.now);
  }

  lemma CalmStep(g: Gateway, st: Step, b: string)
    requires Calm(g, b) && Quiet(g, st, b)
    ensures Calm(Apply(g, st), b)
  {
    if Enabled(g, st) {
      match st
      case Tick(_) =>
      case Arrive(_, _) => ArriveCalm(g, st, b);
      case Choose(_, _, _) => ChooseCalm(g, st, b);
      case Return(_, _) => ReturnCalm(g, st, b);
      case Record(_) => RecordCalm(g, st, b);
      case Readyz(_) => ReadyzCalm(g, st, b);
    }
  }

  lemma {:induction false} CalmRun(g: Gateway, steps: seq<Step>, b: string)
    requires Calm(g, b) && AllQuiet(g, steps, b)
    ensures Calm(Run(g, steps), b)
    decreases |steps|
  {
    if steps != [] {
      CalmStep(g, steps[0], b);
      CalmRun(Apply(g, steps[0]), steps[1..], b);
    }
  }

  /** One backend that fails every request with an error status, retries below the
      threshold, as the defaults of one retry and a threshold of five are: starting from
      any idle state the circuit never opens, in any run of requests one at a time, under
      any strategy. */
  lemma RetriesHideErrors(g: Gateway, steps: seq<Step>, b: string)
    requires g.live.Current? && Solo(g.live.gen.bal, b) && b != "" && b in g.live.gen.circuits
    requires g.live.gen.circuits[b].state == Closed && g.live.gen.circuits[b].fails == 0
    requires g.maxRetries < g.live.gen.circuits[b].threshold
    requires forall i :: i in g.requests ==> !Active(g.requests[i])
    requires AllQuiet(g, steps, b)
    ensures var end := Run(g, steps);
      && end.live.Current? && b in end.live.gen.circuits
      && end.live.gen.circuits[b].state == Closed && end.live.gen.circuits[b].fails <= g.maxRetries
  {
    CalmRun(g, steps, b);
    CalmFails(Run(g, steps), b);
    SameRetries(g, steps);
  }

  lemma CalmFails(g: Gateway, b: string)
    requires Calm(g, b)
    ensures g.live.gen.circuits[b].fails <= g.maxRetries
  {
    if i :| i in g.requests && Active(g.requests[i]) {
      assert Patient(g.requests[i], b, g.live.gen.circuits[b].fails, g.maxRetries);
    }
  }

  lemma {:induction false} SameRetries(g: Gateway, steps: seq<Step>)
    ensures Run(g, steps).maxRetries == g.maxRetries
    decreases |steps|
  {
    if steps != [] {
      SameRetries(Apply(g, steps[0]), steps[1..]);
    }
  }
}
