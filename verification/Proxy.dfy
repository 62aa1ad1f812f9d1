/** The attempt loop of the proxy (internal/proxy/handler.go). A request goes from
    choosing a backend to calling it to recording what came back, and around again
    while attempts are left. What the balancer picks and what the backend does are
    inputs. */
module Proxy {
  import opened Balancer

  predicate IdempotentMethod(method_: string) {
    method_ in ["GET", "HEAD", "OPTIONS", "PUT", "DELETE"]
  }

  predicate RetryableStatus(code: int) {
    code == 502 || code == 503 || code == 504
  }

  function MaxAttempts(idempotent: bool, maxRetries: nat): nat {
    if idempotent then 1 + maxRetries else 1
  }

  datatype Outcome = BuildError | NetworkError | Response(status: int)

  datatype Event = Chose(backend: string) | Released(backend: string) | Reported(backend: string, ok: bool)

  /** Where a request is in the loop. */
  datatype Phase =
    | Choosing
    | Calling(backend: string)
    | Recording(backend: string, ok: bool, again: bool)
    | Finished

  datatype Request = Request(idempotent: bool, attempt: nat, phase: Phase, log: seq<Event>)

  function Start(idempotent: bool): Request {
    Request(idempotent, 0, Choosing, [])
  }

  function OnPick(r: Request, pick: Pick): Request {
    if pick.Picked? then r.(phase := Calling(pick.url), log := r.log + [Chose(pick.url)])
    else r.(phase := Finished)
  }

  /** A response counts as a failure only if it will be retried: the last attempt's
      502, 503 or 504 is passed on to the client and recorded as a success. */
  predicate CountsAsFailure(r: Request, outcome: Outcome, maxRetries: nat) {
    !outcome.Response? ||
    (RetryableStatus(outcome.status) && r.idempotent && r.attempt + 1 < MaxAttempts(r.idempotent, maxRetries))
  }

  /** What the documentation calls a failure. */
  predicate DocumentedFailure(outcome: Outcome) {
    outcome.Response? ==> outcome.status == 502 || outcome.status == 503 || outcome.status == 504
  }

  /** The report follows the documentation except on a 502, 503 or 504 that there is no
      attempt left to retry, or whose method is never retried. */
  lemma DocumentedExactly(r: Request, outcome: Outcome, maxRetries: nat)
    ensures (CountsAsFailure(r, outcome, maxRetries) <==> DocumentedFailure(outcome)) <==>
            !(outcome.Response? && outcome.status in [502, 503, 504] && (!r.idempotent || r.attempt >= maxRetries))
  {
  }

  function OnReturn(r: Request, outcome: Outcome, maxRetries: nat): Request
    requires r.phase.Calling?
  {
    var failed := CountsAsFailure(r, outcome, maxRetries);
    r.(phase := Recording(r.phase.backend, !failed, failed), log := r.log + [Released(r.phase.backend)])
  }

  function OnRecord(r: Request, maxRetries: nat): Request
    requires r.phase.Recording?
  {
    var logged := r.(log := r.log + [Reported(r.phase.backend, r.phase.ok)]);
    if !r.phase.again then logged.(phase := Finished)
    else if r.attempt + 1 < MaxAttempts(r.idempotent, maxRetries) then
      logged.(phase := Choosing, attempt := r.attempt + 1)
    else logged.(phase := Finished)
  }

  // ---- pairing ----

  /** Picks, releases and reports come in threes about one backend. */
  predicate Paired(log: seq<Event>) {
    forall i :: 0 <= i < |log| ==> PairedAt(log, i)
  }

  predicate PairedAt(log: seq<Event>, i: nat)
    requires i < |log|
  {
    if i % 3 == 0 then log[i].Chose?
    else if i % 3 == 1 then log[i] == Released(log[i - 1].backend)
    else log[i].Reported? && log[i].backend == log[i - 2].backend
  }

  /** Only the last attempt can have been reported as a success. */
  predicate FailuresBefore(log: seq<Event>) {
    forall i :: 0 <= i < |log| - 1 && log[i].Reported? ==> !log[i].ok
  }

  ghost predicate Sane(r: Request, maxRetries: nat) {
    var max := MaxAttempts(r.idempotent, maxRetries);
    && Paired(r.log)
    && r.attempt < max
    && match r.phase
       case Choosing => |r.log| == 3 * r.attempt && FailuresBefore(r.log + [Chose("")])
       case Calling(b) =>
         |r.log| == 3 * r.attempt + 1 && r.log[|r.log| - 1] == Chose(b) && FailuresBefore(r.log)
       case Recording(b, ok, again) =>
         && |r.log| == 3 * r.attempt + 2 && r.log[|r.log| - 1] == Released(b) && FailuresBefore(r.log)
         && again == !ok
       case Finished => |r.log| % 3 == 0 && |r.log| <= 3 * max && FailuresBefore(r.log)
  }

  lemma StartSane(idempotent: bool, maxRetries: nat)
    ensures Sane(Start(idempotent), maxRetries)
  {
  }

  lemma PairedSnoc(log: seq<Event>, e: Event)
    requires Paired(log) && PairedAt(log + [e], |log|)
    ensures Paired(log + [e])
  {
    forall i | 0 <= i < |log| + 1 ensures PairedAt(log + [e], i) {
      if i < |log| {
        assert PairedAt(log, i);
      }
    }
  }

  lemma ChosePaired(log: seq<Event>, url: string)
    requires Paired(log) && |log| % 3 == 0
    ensures Paired(log + [Chose(url)])
  {
    PairedSnoc(log, Chose(url));
  }

  lemma ChoseFails(log: seq<Event>, url: string, other: string)
    requires FailuresBefore(log + [Chose(other)])
    ensures FailuresBefore(log + [Chose(url)]) && FailuresBefore(log)
  {
    assert forall i :: 0 <= i < |log| ==> (log + [Chose(other)])[i] == log[i] == (log + [Chose(url)])[i];
  }

  lemma PickSane(r: Request, pick: Pick, maxRetries: nat)
    requires Sane(r, maxRetries) && r.phase.Choosing?
    ensures Sane(OnPick(r, pick), maxRetries)
  {
    hide Paired, FailuresBefore;
    ChoseFails(r.log, if pick.Picked? then pick.url else "", "");
    if pick.Picked? {
      ChosePaired(r.log, pick.url);
    }
  }

  lemma ReturnSane(r: Request, outcome: Outcome, maxRetries: nat)
    requires Sane(r, maxRetries) && r.phase.Calling?
    ensures Sane(OnReturn(r, outcome, maxRetries), maxRetries)
  {
    PairedSnoc(r.log, Released(r.phase.backend));
  }

  lemma RecordSane(r: Request, maxRetries: nat)
    requires Sane(r, maxRetries) && r.phase.Recording?
    ensures Sane(OnRecord(r, maxRetries), maxRetries)
  {
    var n := |r.log|;
    assert PairedAt(r.log, n - 1) && PairedAt(r.log, n - 2);
    PairedSnoc(r.log, Reported(r.phase.backend, r.phase.ok));
  }

  // ---- the loop itself ----

  /** The request machine driven to its end: attempt `k` sees `picks[k]` and, if a
      backend was picked, `outcomes[k]`. */
  function Driven(r: Request, maxRetries: nat, picks: seq<Pick>, outcomes: seq<Outcome>): Request
    requires |picks| >= MaxAttempts(r.idempotent, maxRetries) && |outcomes| == |picks|
    requires r.phase.Choosing? && r.attempt < MaxAttempts(r.idempotent, maxRetries)
    decreases MaxAttempts(r.idempotent, maxRetries) - r.attempt
  {
    var p := OnPick(r, picks[r.attempt]);
    if p.phase.Finished? then p
    else
      var q := OnRecord(OnReturn(p, outcomes[r.attempt], maxRetries), maxRetries);
      if q.phase.Finished? then q else Driven(q, maxRetries, picks, outcomes)
  }

  lemma {:induction false} DrivenSane(r: Request, maxRetries: nat, picks: seq<Pick>, outcomes: seq<Outcome>)
    requires |picks| >= MaxAttempts(r.idempotent, maxRetries) && |outcomes| == |picks|
    requires r.phase.Choosing? && Sane(r, maxRetries)
    ensures var end := Driven(r, maxRetries, picks, outcomes);
      Sane(end, maxRetries) && end.phase.Finished? && end.idempotent == r.idempotent
    decreases MaxAttempts(r.idempotent, maxRetries) - r.attempt
  {
    var p := OnPick(r, picks[r.attempt]);
    PickSane(r, picks[r.attempt], maxRetries);
    if !p.phase.Finished? {
      ReturnSane(p, outcomes[r.attempt], maxRetries);
      var o := OnReturn(p, outcomes[r.attempt], maxRetries);
      RecordSane(o, maxRetries);
      var q := OnRecord(o, maxRetries);
      if !q.phase.Finished? {
        DrivenSane(q, maxRetries, picks, outcomes);
      }
    }
  }

  // ---- the log explained by what was picked and what came back ----

  /** Whether attempt `k` is reported as a success: a response came back, and it is not
      one that the loop is going to retry. */
  predicate Succeeds(idempotent: bool, maxRetries: nat, outcomes: seq<Outcome>, k: nat)
    requires k < |outcomes|
  {
    outcomes[k].Response? && !(outcomes[k].status in [502, 503, 504] && idempotent && k < maxRetries)
  }

  /** Attempt `k` went to the backend that was picked and was reported as it went. */
  predicate Explains(log: seq<Event>, k: nat, idempotent: bool, maxRetries: nat,
                     picks: seq<Pick>, outcomes: seq<Outcome>)
    requires k < |picks| == |outcomes| && 3 * k + 3 <= |log|
  {
    && picks[k].Picked?
    && log[3 * k] == Chose(picks[k].url)
    && log[3 * k + 2] == Reported(picks[k].url, Succeeds(idempotent, maxRetries, outcomes, k))
  }

  ghost predicate Explained(log: seq<Event>, n: nat, idempotent: bool, maxRetries: nat,
                            picks: seq<Pick>, outcomes: seq<Outcome>)
    requires n <= |picks| == |outcomes|
  {
    |log| == 3 * n && forall k :: 0 <= k < n ==> Explains(log, k, idempotent, maxRetries, picks, outcomes)
  }

  /** Why the loop stopped after `n` attempts, and no earlier: nothing was picked, the
      attempts were used up, or the last one succeeded. */
  predicate StopsAt(n: nat, idempotent: bool, maxRetries: nat, picks: seq<Pick>, outcomes: seq<Outcome>)
    requires |picks| == |outcomes| >= MaxAttempts(idempotent, maxRetries)
  {
    var max := if idempotent then 1 + maxRetries else 1;
    && n <= max
    && (forall k :: 0 <= k < n - 1 ==> !Succeeds(idempotent, maxRetries, outcomes, k))
    && (n == max || picks[n].NoHealthyBackend? || (n > 0 && Succeeds(idempotent, maxRetries, outcomes, n - 1)))
  }

  lemma ExplainedOn(log: seq<Event>, n: nat, more: seq<Event>, idempotent: bool, maxRetries: nat,
                    picks: seq<Pick>, outcomes: seq<Outcome>)
    requires n < |picks| == |outcomes| && Explained(log, n, idempotent, maxRetries, picks, outcomes)
    requires picks[n].Picked?
    requires more == [Chose(picks[n].url), Released(picks[n].url),
                      Reported(picks[n].url, Succeeds(idempotent, maxRetries, outcomes, n))]
    ensures Explained(log + more, n + 1, idempotent, maxRetries, picks, outcomes)
  {
    forall k | 0 <= k < n + 1 ensures Explains(log + more, k, idempotent, maxRetries, picks, outcomes) {
      assert k < n ==> Explains(log, k, idempotent, maxRetries, picks, outcomes);
    }
  }

  /** The whole log of a request, from its method's class, the picks and the outcomes. */
  lemma {:induction false} DrivenExplained(r: Request, maxRetries: nat, picks: seq<Pick>, outcomes: seq<Outcome>)
      returns (n: nat)
    requires |picks| >= MaxAttempts(r.idempotent, maxRetries) && |outcomes| == |picks|
    requires r.phase.Choosing? && r.attempt < MaxAttempts(r.idempotent, maxRetries)
    requires Explained(r.log, r.attempt, r.idempotent, maxRetries, picks, outcomes)
    requires forall k :: 0 <= k < r.attempt ==> !Succeeds(r.idempotent, maxRetries, outcomes, k)
    ensures StopsAt(n, r.idempotent, maxRetries, picks, outcomes)
    ensures Explained(Driven(r, maxRetries, picks, outcomes).log, n, r.idempotent, maxRetries, picks, outcomes)
    decreases MaxAttempts(r.idempotent, maxRetries) - r.attempt
  {
    if picks[r.attempt].NoHealthyBackend? {
      return r.attempt;
    }
    var url := picks[r.attempt].url;
    AttemptedIs(r, url, outcomes[r.attempt], maxRetries);
    var q := Attempted(r, url, outcomes[r.attempt], maxRetries);
    ExplainedOn(r.log, r.attempt, q.log[|r.log|..], r.idempotent, maxRetries, picks, outcomes);
    assert q.log == r.log + q.log[|r.log|..];
    if q.phase.Finished? {
      return r.attempt + 1;
    }
    n := DrivenExplained(q, maxRetries, picks, outcomes);
  }

  /** One whole attempt of the machine. */
  function Attempted(r: Request, url: string, outcome: Outcome, maxRetries: nat): Request {
    OnRecord(OnReturn(OnPick(r, Picked(url)), outcome, maxRetries), maxRetries)
  }

  lemma AttemptedIs(r: Request, url: string, outcome: Outcome, maxRetries: nat)
    ensures var q, failed := Attempted(r, url, outcome, maxRetries), CountsAsFailure(r, outcome, maxRetries);
      && q.log == r.log + [Chose(url), Released(url), Reported(url, !failed)]
      && q.idempotent == r.idempotent
      && (if failed && r.attempt + 1 < MaxAttempts(r.idempotent, maxRetries)
          then q.phase == Choosing && q.attempt == r.attempt + 1
          else q.phase == Finished)
  {
  }

  /** What the client gets. */
  datatype Answer = Relayed(status: int) | AllFailed

  /** One pass through the loop body with a backend in hand. */
  method TryBackend(server: string, outcome: Outcome, mayRetry: bool) returns (log: seq<Event>, failed: bool)
    ensures failed == (!outcome.Response? || (RetryableStatus(outcome.status) && mayRetry))
    ensures log == [Chose(server), Released(server), Reported(server, !failed)]
  {
    log := [Chose(server)];
    if outcome.BuildError? {
      log := log + [Released(server)];
      log := log + [Reported(server, false)];
      return log, true;
    }
    log := log + [Released(server)];
    if outcome.NetworkError? {
      log := log + [Reported(server, false)];
      return log, true;
    }
    if RetryableStatus(outcome.status) && mayRetry {
      log := log + [Reported(server, false)];
      return log, true;
    }
    log := log + [Reported(server, true)];
    failed := false;
  }

  /** The loop went on after its `n` attempts and found nobody to try. */
  predicate GaveUp(n: nat, idempotent: bool, maxRetries: nat, outcomes: seq<Outcome>)
    requires n <= |outcomes|
  {
    n < (if idempotent then 1 + maxRetries else 1) && (n == 0 || !Succeeds(idempotent, maxRetries, outcomes, n - 1))
  }

  /** ServeHTTP's loop, with the calls it makes to the balancer and the breaker as a
      log. Whatever is picked and however the backends behave, every pick is released
      and reported exactly once, there are at most 1 + MaxRetries attempts, one if the
      method is not idempotent, every attempt begun after the first counts as a retry,
      and the client is answered by the last attempt exactly
      when that attempt was reported as a success. */
  method ServeHTTP(method_: string, maxRetries: nat, picks: seq<Pick>, outcomes: seq<Outcome>)
      returns (log: seq<Event>, retries: nat, answer: Answer)
    requires |picks| >= MaxAttempts(IdempotentMethod(method_), maxRetries) && |outcomes| == |picks|
    ensures log == Driven(Start(IdempotentMethod(method_)), maxRetries, picks, outcomes).log
    ensures Paired(log) && FailuresBefore(log)
    ensures |log| % 3 == 0 && |log| <= 3 * MaxAttempts(IdempotentMethod(method_), maxRetries)
    ensures |log| <= 3 * (1 + maxRetries)
    ensures method_ !in ["GET", "HEAD", "OPTIONS", "PUT", "DELETE"] ==> |log| <= 3
    ensures method_ in ["GET", "HEAD", "OPTIONS", "PUT", "DELETE"] ==>
      StopsAt(|log| / 3, true, maxRetries, picks, outcomes)
    ensures retries < MaxAttempts(IdempotentMethod(method_), maxRetries)
    ensures var n := |log| / 3;
      retries == if GaveUp(n, IdempotentMethod(method_), maxRetries, outcomes) then n else n - 1
    ensures StopsAt(|log| / 3, IdempotentMethod(method_), maxRetries, picks, outcomes)
    ensures Explained(log, |log| / 3, IdempotentMethod(method_), maxRetries, picks, outcomes)
    ensures answer.Relayed? <==> log != [] && log[|log| - 1].Reported? && log[|log| - 1].ok
    ensures answer.Relayed? ==> outcomes[|log| / 3 - 1] == Response(answer.status)
  {
    hide Driven, Explained, Succeeds, Paired, FailuresBefore;
    var idempotent := IdempotentMethod(method_);
    ghost var r := Start(idempotent);
    StartSane(idempotent, maxRetries);
    DrivenSane(r, maxRetries, picks, outcomes);
    ghost var n := DrivenExplained(r, maxRetries, picks, outcomes);
    log, retries, answer := AttemptLoop(idempotent, maxRetries, picks, outcomes);
    LastOutcome(log, n, idempotent, maxRetries, picks, outcomes);
  }

  lemma LastOutcome(log: seq<Event>, n: nat, idempotent: bool, maxRetries: nat,
                    picks: seq<Pick>, outcomes: seq<Outcome>)
    requires n <= |picks| == |outcomes| && Explained(log, n, idempotent, maxRetries, picks, outcomes)
    ensures |log| == 3 * n && |log| / 3 == n
    ensures n > 0 ==> log[|log| - 1].Reported? && log[|log| - 1].ok == Succeeds(idempotent, maxRetries, outcomes, n - 1)
  {
    assert n > 0 ==> Explains(log, n - 1, idempotent, maxRetries, picks, outcomes);
  }

  method AttemptLoop(idempotent: bool, maxRetries: nat, picks: seq<Pick>, outcomes: seq<Outcome>)
      returns (log: seq<Event>, retries: nat, answer: Answer)
    requires |picks| >= MaxAttempts(idempotent, maxRetries) && |outcomes| == |picks|
    ensures log == Driven(Start(idempotent), maxRetries, picks, outcomes).log
    ensures retries < MaxAttempts(idempotent, maxRetries)
    ensures |log| % 3 == 0
    ensures retries == if answer.Relayed? || |log| / 3 == MaxAttempts(idempotent, maxRetries)
                       then |log| / 3 - 1 else |log| / 3
    ensures answer.Relayed? <==> log != [] && log[|log| - 1].Reported? && log[|log| - 1].ok
    ensures answer.Relayed? ==> 0 < |log| / 3 <= |outcomes| && outcomes[|log| / 3 - 1] == Response(answer.status)
  {
    var maxAttempts := 1;
    if idempotent {
      maxAttempts := 1 + maxRetries;
    }
    ghost var r := Start(idempotent);
    ghost var end := Driven(r, maxRetries, picks, outcomes);
    log, retries := [], 0;
    var attempt := 0;
    while attempt < maxAttempts
      invariant 0 <= attempt <= maxAttempts && retries == (if attempt == 0 then 0 else attempt - 1)
      invariant log == r.log && |log| == 3 * attempt && r.idempotent == idempotent
      invariant attempt < maxAttempts ==>
                  r.phase.Choosing? && r.attempt == attempt && Driven(r, maxRetries, picks, outcomes) == end
      invariant attempt == maxAttempts ==> r == end
      invariant log != [] ==> log[|log| - 1].Reported? && !log[|log| - 1].ok
    {
      if attempt > 0 {
        retries := retries + 1;
      }
      var pick := picks[attempt];
      if pick.NoHealthyBackend? {
        return log, retries, AllFailed;
      }
      var events, failed := TryBackend(pick.url, outcomes[attempt], idempotent && attempt < maxAttempts - 1);
      AttemptedIs(r, pick.url, outcomes[attempt], maxRetries);
      r := Attempted(r, pick.url, outcomes[attempt], maxRetries);
      log := log + events;
      if !failed {
        return log, retries, Relayed(outcomes[attempt].status);
      }
      attempt := attempt + 1;
    }
    answer := AllFailed;
  }
}
