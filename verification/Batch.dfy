/** The queue and drain loop every remote log exporter shares
    (internal/logging/exporter.go, type batch). Writers, the drain loop, its ticker and
    Close act at the same time; each channel operation is one step, and steps come in
    any order. */
module Batch {
  import opened Seqs

  /** Leaving is the time between the last look at the queue, which found it empty, and
      the return: the last batch is being sent. */
  datatype Stage = Serving | Draining | Leaving | Returned

  /** `sent` is every slice handed to the sink so far, oldest first. */
  datatype Batcher<T> = Batcher(
    depth: nat, maxBatch: nat,
    queue: seq<T>, buf: seq<T>, sent: seq<seq<T>>,
    dropped: nat, closed: bool, stage: Stage)

  /** Receive is the loop taking an entry off the queue, before or after it has seen
      Close; SeeDone is the loop noticing Close; LastLook is it finding the queue empty
      after that; Return is the last send and the return. */
  datatype Step<T> = Write(entry: T) | Receive | Tick | Close | SeeDone | LastLook | Return

  function Fresh<T>(depth: nat, maxBatch: nat): Batcher<T> {
    Batcher(depth, maxBatch, [], [], [], 0, false, Serving)
  }

  function Flushed<T>(b: Batcher<T>): Batcher<T> {
    if b.buf == [] then b else b.(sent := b.sent + [b.buf], buf := [])
  }

  function Taken<T>(b: Batcher<T>): Batcher<T>
    requires b.queue != []
  {
    var t := b.(queue := b.queue[1..], buf := b.buf + [b.queue[0]]);
    if |t.buf| >= b.maxBatch then Flushed(t) else t
  }

  predicate Full<T>(b: Batcher<T>) {
    |b.queue| >= b.depth
  }

  predicate Enabled<T>(b: Batcher<T>, st: Step<T>) {
    match st
    case Receive => b.queue != [] && (b.stage == Serving || b.stage == Draining)
    case Tick => b.stage == Serving
    case SeeDone => b.stage == Serving && b.closed
    case LastLook => b.stage == Draining && b.queue == []
    case Return => b.stage == Leaving
    case _ => true
  }

  function Apply<T>(b: Batcher<T>, st: Step<T>): Batcher<T> {
    if !Enabled(b, st) then b else
    match st
    case Write(e) => if Full(b) then b.(dropped := b.dropped + 1) else b.(queue := b.queue + [e])
    case Receive => Taken(b)
    case Tick => Flushed(b)
    case Close => b.(closed := true)
    case SeeDone => b.(stage := Draining)
    case LastLook => b.(stage := Leaving)
    case Return => Flushed(b).(stage := Returned)
  }

  function Run<T>(b: Batcher<T>, steps: seq<Step<T>>): Batcher<T>
    decreases |steps|
  {
    if steps == [] then b else Run(Apply(b, steps[0]), steps[1..])
  }

  // ---- what the writers did ----

  /** What a step adds to the accepted and to the refused entries. */
  function Accepts<T>(b: Batcher<T>, st: Step<T>): seq<T> {
    if st.Write? && !Full(b) then [st.entry] else []
  }

  function Refuses<T>(b: Batcher<T>, st: Step<T>): seq<T> {
    if st.Write? && Full(b) then [st.entry] else []
  }

  function Accepted<T>(b: Batcher<T>, steps: seq<Step<T>>): seq<T>
    decreases |steps|
  {
    if steps == [] then [] else Accepts(b, steps[0]) + Accepted(Apply(b, steps[0]), steps[1..])
  }

  function Refused<T>(b: Batcher<T>, steps: seq<Step<T>>): seq<T>
    decreases |steps|
  {
    if steps == [] then [] else Refuses(b, steps[0]) + Refused(Apply(b, steps[0]), steps[1..])
  }

  /** Everything the writers wrote, whatever became of it. */
  function Written<T>(steps: seq<Step<T>>): seq<T>
    decreases |steps|
  {
    if steps == [] then [] else (if steps[0].Write? then [steps[0].entry] else []) + Written(steps[1..])
  }

  function Ticks<T>(steps: seq<Step<T>>): nat
    decreases |steps|
  {
    if steps == [] then 0 else (if steps[0].Tick? then 1 else 0) + Ticks(steps[1..])
  }

  // ---- what became of it ----

  function Flatten<T>(batches: seq<seq<T>>): seq<T>
    decreases |batches|
  {
    if batches == [] then [] else Flatten(batches[..|batches| - 1]) + batches[|batches| - 1]
  }

  /** Every accepted entry, in order: sent, buffered or still queued. */
  function Held<T>(b: Batcher<T>): seq<T> {
    Flatten(b.sent) + b.buf + b.queue
  }

  /** Batches that are not full. */
  function Short<T>(batches: seq<seq<T>>, maxBatch: nat): nat
    decreases |batches|
  {
    if batches == [] then 0
    else Short(batches[..|batches| - 1], maxBatch) + if |batches[|batches| - 1]| == maxBatch then 0 else 1
  }

  predicate Good<T>(b: Batcher<T>) {
    && |b.queue| <= b.depth
    && |b.buf| < b.maxBatch
    && (forall i :: 0 <= i < |b.sent| ==> 1 <= |b.sent[i]| <= b.maxBatch)
    && (b.stage == Returned ==> b.buf == [])
    && (b.stage != Serving ==> b.closed)
  }

  lemma FlattenSnoc<T>(batches: seq<seq<T>>, last: seq<T>)
    ensures Flatten(batches + [last]) == Flatten(batches) + last
  {
    assert (batches + [last])[..|batches|] == batches;
  }

  lemma ShortSnoc<T>(batches: seq<seq<T>>, last: seq<T>, maxBatch: nat)
    ensures Short(batches + [last], maxBatch) == Short(batches, maxBatch) + if |last| == maxBatch then 0 else 1
  {
    assert (batches + [last])[..|batches|] == batches;
  }

  lemma FlushedHeld<T>(b: Batcher<T>)
    ensures Held(Flushed(b)) == Held(b)
  {
    if b.buf != [] {
      FlattenSnoc(b.sent, b.buf);
      var f := Flushed(b);
      assert Flatten(f.sent) + f.buf == Flatten(b.sent) + b.buf;
    }
  }

  lemma FlushedShort<T>(b: Batcher<T>)
    ensures Short(Flushed(b).sent, b.maxBatch) <= Short(b.sent, b.maxBatch) + 1
    ensures |b.buf| == b.maxBatch ==> Short(Flushed(b).sent, b.maxBatch) == Short(b.sent, b.maxBatch)
  {
    ShortSnoc(b.sent, b.buf, b.maxBatch);
  }

  lemma TakenHeld<T>(b: Batcher<T>)
    requires b.queue != [] && |b.buf| < b.maxBatch
    ensures Held(Taken(b)) == Held(b)
    ensures Short(Taken(b).sent, b.maxBatch) == Short(b.sent, b.maxBatch)
  {
    var t := b.(queue := b.queue[1..], buf := b.buf + [b.queue[0]]);
    assert b.queue == [b.queue[0]] + b.queue[1..];
    assert Held(t) == Held(b);
    FlushedHeld(t);
    FlushedShort(t);
  }

  lemma StepGood<T>(b: Batcher<T>, st: Step<T>)
    requires Good(b)
    ensures Good(Apply(b, st))
    ensures Apply(b, st).maxBatch == b.maxBatch && Apply(b, st).depth == b.depth
  {
  }

  /** One step adds to what is held exactly what it accepts, and loses nothing. */
  lemma StepConserves<T>(b: Batcher<T>, st: Step<T>)
    requires Good(b)
    ensures Held(Apply(b, st)) == Held(b) + Accepts(b, st)
    ensures Apply(b, st).dropped == b.dropped + |Refuses(b, st)|
  {
    if Enabled(b, st) {
      match st
      case Receive => TakenHeld(b);
      case Tick => FlushedHeld(b);
      case Return => FlushedHeld(b);
      case _ =>
    }
  }

  lemma {:induction false} RunGood<T>(b: Batcher<T>, steps: seq<Step<T>>)
    requires Good(b)
    ensures Good(Run(b, steps))
    decreases |steps|
  {
    if steps != [] {
      StepGood(b, steps[0]);
      RunGood(Apply(b, steps[0]), steps[1..]);
    }
  }

  lemma {:induction false} RunConserves<T>(b: Batcher<T>, steps: seq<Step<T>>)
    requires Good(b)
    ensures Held(Run(b, steps)) == Held(b) + Accepted(b, steps)
    ensures Run(b, steps).dropped == b.dropped + |Refused(b, steps)|
    decreases |steps|
  {
    if steps == [] {
      assert Held(b) + [] == Held(b);
    } else {
      var next := Apply(b, steps[0]);
      StepGood(b, steps[0]);
      StepConserves(b, steps[0]);
      RunConserves(next, steps[1..]);
      Regroup(Held(b), Accepts(b, steps[0]), Accepted(next, steps[1..]));
    }
  }

  /** Conservation, in every interleaving from a fresh batcher: sent, buffered and queued
      entries together are exactly the accepted ones, in order; the drop counter counts
      exactly the refused ones; together they are all that was written; and every batch
      has between one and maxBatch entries. */
  lemma Conservation<T>(depth: nat, maxBatch: nat, steps: seq<Step<T>>)
    requires maxBatch >= 1
    ensures var start := Fresh(depth, maxBatch);
            var end := Run(start, steps);
      && Flatten(end.sent) + end.buf + end.queue == Accepted(start, steps)
      && end.dropped == |Refused(start, steps)|
      && |Accepted(start, steps)| + end.dropped == |Written(steps)|
      && forall i :: 0 <= i < |end.sent| ==> 1 <= |end.sent[i]| <= maxBatch
  {
    var start: Batcher<T> := Fresh(depth, maxBatch);
    RunGood(start, steps);
    SameLimits(start, steps);
    FreshConserves(start, steps);
    WritesAreSplit(start, steps);
  }

  lemma FreshConserves<T>(start: Batcher<T>, steps: seq<Step<T>>)
    requires Good(start) && start == Fresh(start.depth, start.maxBatch)
    ensures Held(Run(start, steps)) == Accepted(start, steps)
    ensures Run(start, steps).dropped == |Refused(start, steps)|
  {
    RunConserves(start, steps);
    assert Held(start) == [];
  }

  lemma {:induction false} SameLimits<T>(b: Batcher<T>, steps: seq<Step<T>>)
    ensures Run(b, steps).maxBatch == b.maxBatch && Run(b, steps).depth == b.depth
    decreases |steps|
  {
    if steps != [] {
      SameLimits(Apply(b, steps[0]), steps[1..]);
    }
  }

  /** Every write is accepted or refused, never both. */
  lemma {:induction false} WritesAreSplit<T>(b: Batcher<T>, steps: seq<Step<T>>)
    ensures multiset(Accepted(b, steps)) + multiset(Refused(b, steps)) == multiset(Written(steps))
    ensures |Accepted(b, steps)| + |Refused(b, steps)| == |Written(steps)|
    decreases |steps|
  {
    if steps != [] {
      WritesAreSplit(Apply(b, steps[0]), steps[1..]);
    }
  }

  function Returns(stage: Stage): nat {
    if stage == Returned then 1 else 0
  }

  lemma StepShort<T>(b: Batcher<T>, st: Step<T>)
    requires Good(b)
    ensures Short(Apply(b, st).sent, b.maxBatch) + Returns(b.stage)
            <= Short(b.sent, b.maxBatch) + (if st.Tick? then 1 else 0) + Returns(Apply(b, st).stage)
  {
    if Enabled(b, st) {
      match st
      case Receive => TakenHeld(b);
      case Tick => FlushedShort(b);
      case Return => FlushedShort(b);
      case _ =>
    }
  }

  /** A batch is sent early only by the ticker or by the return: there are no more short
      batches than ticks, and one more once the loop has returned. */
  lemma {:induction false} FewShortBatches<T>(b: Batcher<T>, steps: seq<Step<T>>)
    requires Good(b)
    ensures Short(Run(b, steps).sent, b.maxBatch) + Returns(b.stage)
            <= Short(b.sent, b.maxBatch) + Ticks(steps) + Returns(Run(b, steps).stage)
    decreases |steps|
  {
    if steps != [] {
      StepGood(b, steps[0]);
      StepShort(b, steps[0]);
      FewShortBatches(Apply(b, steps[0]), steps[1..]);
    }
  }

  // ---- the return ----

  predicate NoReturn<T>(steps: seq<Step<T>>)
    decreases |steps|
  {
    steps == [] || (!steps[0].Return? && NoReturn(steps[1..]))
  }

  lemma StepTakesNothing<T>(b: Batcher<T>, st: Step<T>)
    requires b.stage == Returned || (b.stage == Leaving && !st.Return?)
    ensures var b' := Apply(b, st);
      b'.stage == b.stage && b'.sent == b.sent && b'.buf == b.buf && b'.queue == b.queue + Accepts(b, st)
  {
  }

  /** From the last look to the return, and ever after, nothing leaves the queue: writes
      that are accepted stay in it, and are not counted as dropped. */
  lemma {:induction false} NothingTaken<T>(b: Batcher<T>, steps: seq<Step<T>>)
    requires b.stage == Returned || (b.stage == Leaving && NoReturn(steps))
    ensures var end := Run(b, steps);
      end.stage == b.stage && end.sent == b.sent && end.buf == b.buf && end.queue == b.queue + Accepted(b, steps)
    decreases |steps|
  {
    if steps != [] {
      var next := Apply(b, steps[0]);
      StepTakesNothing(b, steps[0]);
      NothingTaken(next, steps[1..]);
      Regroup(b.queue, Accepts(b, steps[0]), Accepted(next, steps[1..]));
    }
  }

  /** At the last look the sent and the buffered entries are all that was accepted. */
  lemma LookHolds<T>(depth: nat, maxBatch: nat, before: seq<Step<T>>, b: Batcher<T>)
    requires maxBatch >= 1 && b == Run(Fresh(depth, maxBatch), before) && Enabled(b, LastLook)
    ensures Good(b) && Flatten(b.sent) + b.buf == Accepted(Fresh(depth, maxBatch), before)
    ensures |Accepted(Fresh(depth, maxBatch), before)| + b.dropped == |Written(before)|
  {
    Conservation(depth, maxBatch, before);
    RunGood(Fresh(depth, maxBatch), before);
    assert Flatten(b.sent) + b.buf + [] == Flatten(b.sent) + b.buf;
  }

  /** A run cut at its last look and at its return. Exactly the writes accepted before the
      last look have then been sent, in order; those accepted between the look and the
      return are in the queue. */
  lemma ReturnDelivers<T>(depth: nat, maxBatch: nat, before: seq<Step<T>>, b: Batcher<T>,
                          during: seq<Step<T>>, c: Batcher<T>)
    requires maxBatch >= 1
    requires b == Run(Fresh(depth, maxBatch), before) && Enabled(b, LastLook)
    requires NoReturn(during) && c == Run(Apply(b, LastLook), during)
    ensures var back := Apply(c, Return);
      && Enabled(c, Return) && back.stage == Returned && back.buf == []
      && Flatten(back.sent) == Accepted(Fresh(depth, maxBatch), before)
      && back.queue == Accepted(Apply(b, LastLook), during)
  {
    var look := Apply(b, LastLook);
    LookHolds(depth, maxBatch, before, b);
    NothingTaken(look, during);
    assert look.queue + Accepted(look, during) == Accepted(look, during);
    FlushedAll(c);
  }

  lemma FlushedAll<T>(b: Batcher<T>)
    ensures Flatten(Flushed(b).sent) == Flatten(b.sent) + b.buf && Flushed(b).buf == []
  {
    FlattenSnoc(b.sent, b.buf);
  }

  /** Once the loop has returned nothing is ever sent again, and the books never close:
      each write was sent, is counted as dropped, or is lost in the queue uncounted. */
  lemma AfterTheReturn<T>(depth: nat, maxBatch: nat, steps: seq<Step<T>>, back: Batcher<T>, after: seq<Step<T>>)
    requires maxBatch >= 1 && back == Run(Fresh(depth, maxBatch), steps) && back.stage == Returned
    ensures var end := Run(back, after);
      && end.sent == back.sent
      && end.queue == back.queue + Accepted(back, after)
      && |Flatten(end.sent)| + end.dropped + |end.queue| == |Written(steps)| + |Written(after)|
  {
    Conservation(depth, maxBatch, steps);
    RunGood(Fresh(depth, maxBatch), steps);
    NothingTaken(back, after);
    RunConserves(back, after);
    WritesAreSplit(back, after);
  }

  /** Every run that has returned can be cut that way. */
  lemma {:induction false} ReturnedRunSplits<T>(b: Batcher<T>, steps: seq<Step<T>>)
      returns (before: seq<Step<T>>, during: seq<Step<T>>, after: seq<Step<T>>)
    requires (b.stage == Serving || b.stage == Draining) && Run(b, steps).stage == Returned
    ensures steps == before + [LastLook] + during + [Return] + after
    ensures Enabled(Run(b, before), LastLook) && NoReturn(during)
    decreases |steps|
  {
    if Enabled(b, steps[0]) && steps[0].LastLook? {
      during, after := LeavingRunSplits(Apply(b, LastLook), steps[1..]);
      before := [];
    } else {
      before, during, after := ReturnedRunSplits(Apply(b, steps[0]), steps[1..]);
      var rest := before + [LastLook] + during + [Return] + after;
      assert steps == [steps[0]] + rest;
      assert [steps[0]] + rest == [steps[0]] + before + [LastLook] + during + [Return] + after;
      before := [steps[0]] + before;
    }
  }

  lemma {:induction false} LeavingRunSplits<T>(b: Batcher<T>, steps: seq<Step<T>>)
      returns (during: seq<Step<T>>, after: seq<Step<T>>)
    requires b.stage == Leaving && Run(b, steps).stage == Returned
    ensures steps == during + [Return] + after && NoReturn(during)
    decreases |steps|
  {
    if steps[0].Return? {
      during, after := [], steps[1..];
    } else {
      StepTakesNothing(b, steps[0]);
      during, after := LeavingRunSplits(Apply(b, steps[0]), steps[1..]);
      during := [steps[0]] + during;
    }
  }

  lemma {:induction false} RunConcat<T>(b: Batcher<T>, s: seq<Step<T>>, t: seq<Step<T>>)
    ensures Run(b, s + t) == Run(Run(b, s), t)
    decreases |s|
  {
    if s == [] {
      assert s + t == t;
    } else {
      assert (s + t)[1..] == s[1..] + t;
      RunConcat(Apply(b, s[0]), s[1..], t);
    }
  }

  lemma RunThen<T>(b: Batcher<T>, s: seq<Step<T>>, st: Step<T>)
    ensures Run(b, s + [st]) == Apply(Run(b, s), st)
  {
    RunConcat(b, s, [st]);
    assert [st][1..] == [];
  }

  /** For every run that has returned: what has been sent is what was accepted before the
      last look, no more and no less. */
  lemma EveryReturn<T>(depth: nat, maxBatch: nat, steps: seq<Step<T>>)
      returns (before: seq<Step<T>>, during: seq<Step<T>>, after: seq<Step<T>>)
    requires maxBatch >= 1 && Run(Fresh(depth, maxBatch), steps).stage == Returned
    ensures steps == before + [LastLook] + during + [Return] + after
    ensures Enabled(Run(Fresh(depth, maxBatch), before), LastLook) && NoReturn(during)
    ensures Flatten(Run(Fresh(depth, maxBatch), steps).sent) == Accepted(Fresh(depth, maxBatch), before)
  {
    var start: Batcher<T> := Fresh(depth, maxBatch);
    before, during, after := ReturnedRunSplits(start, steps);
    var b := Run(start, before);
    var c := Run(Apply(b, LastLook), during);
    ReturnDelivers(depth, maxBatch, before, b, during, c);
    RunThen(start, before, LastLook);
    RunConcat(start, before + [LastLook], during);
    RunThen(start, before + [LastLook] + during, Return);
    RunConcat(start, before + [LastLook] + during + [Return], after);
    NothingTaken(Apply(c, Return), after);
  }

  predicate NoWrite<T>(steps: seq<Step<T>>)
    decreases |steps|
  {
    steps == [] || (!steps[0].Write? && NoWrite(steps[1..]))
  }

  /** With an empty queue of any depth and nobody taking from it, the first write is
      accepted. */
  lemma {:induction false} AcceptedIfWritten<T>(b: Batcher<T>, steps: seq<Step<T>>)
    requires b.depth >= 1 && b.queue == [] && b.stage == Leaving && NoReturn(steps)
    ensures Accepted(b, steps) == [] <==> NoWrite(steps)
    decreases |steps|
  {
    if steps != [] && !steps[0].Write? {
      StepTakesNothing(b, steps[0]);
      AcceptedIfWritten(Apply(b, steps[0]), steps[1..]);
    }
  }

  /** At the return everything accepted so far has been sent if and only if nobody wrote
      since the last look. */
  lemma CompleteExactly<T>(depth: nat, maxBatch: nat, before: seq<Step<T>>, b: Batcher<T>, during: seq<Step<T>>)
    requires depth >= 1 && maxBatch >= 1
    requires b == Run(Fresh(depth, maxBatch), before) && Enabled(b, LastLook) && NoReturn(during)
    ensures var steps := before + [LastLook] + during + [Return];
      Flatten(Run(Fresh(depth, maxBatch), steps).sent) == Accepted(Fresh(depth, maxBatch), steps) <==> NoWrite(during)
  {
    var start: Batcher<T> := Fresh(depth, maxBatch);
    var c := Run(Apply(b, LastLook), during);
    ReturnDelivers(depth, maxBatch, before, b, during, c);
    RunThen(start, before, LastLook);
    RunConcat(start, before + [LastLook], during);
    RunThen(start, before + [LastLook] + during, Return);
    Conservation(depth, maxBatch, before + [LastLook] + during + [Return]);
    SameLimits(start, before);
    AcceptedIfWritten(Apply(b, LastLook), during);
  }

  /** A write can be lost, whatever the sizes: accepted while the last batch is on its way
      out, it is neither sent nor counted. */
  lemma LostWrite<T>(depth: nat, maxBatch: nat, x: T)
    requires depth >= 1 && maxBatch >= 1
    ensures var end := Run(Fresh(depth, maxBatch), [Close, SeeDone, LastLook, Write(x), Return]);
      end.stage == Returned && end.sent == [] && end.queue == [x] && end.dropped == 0
  {
    var b: Batcher<T> := Fresh(depth, maxBatch);
    RunCons(b, Close, [SeeDone, LastLook, Write(x), Return]);
    RunCons(Apply(b, Close), SeeDone, [LastLook, Write(x), Return]);
    var draining := Apply(Apply(b, Close), SeeDone);
    RunCons(draining, LastLook, [Write(x), Return]);
    RunCons(Apply(draining, LastLook), Write(x), [Return]);
    RunCons(Apply(Apply(draining, LastLook), Write(x)), Return, []);
  }

  lemma RunCons<T>(b: Batcher<T>, st: Step<T>, steps: seq<Step<T>>)
    ensures Run(b, [st] + steps) == Run(Apply(b, st), steps)
  {
    assert ([st] + steps)[1..] == steps;
  }

  // ---- what is sent, and when ----

  /** The entry a step takes off the queue. */
  function Takes<T>(b: Batcher<T>, st: Step<T>): seq<T> {
    if st.Receive? && Enabled(b, st) then [b.queue[0]] else []
  }

  /** The entries the loop has received in a run, in order. */
  function Received<T>(b: Batcher<T>, steps: seq<Step<T>>): seq<T>
    decreases |steps|
  {
    if steps == [] then [] else Takes(b, steps[0]) + Received(Apply(b, steps[0]), steps[1..])
  }

  /** What is in the loop's hands: sent or buffered. */
  function InHand<T>(b: Batcher<T>): seq<T> {
    Flatten(b.sent) + b.buf
  }

  lemma StepReceives<T>(b: Batcher<T>, st: Step<T>)
    ensures InHand(Apply(b, st)) == InHand(b) + Takes(b, st)
  {
    if Enabled(b, st) {
      match st
      case Receive =>
        var t := b.(queue := b.queue[1..], buf := b.buf + [b.queue[0]]);
        FlushedAll(t);
        assert InHand(t) == InHand(b) + [b.queue[0]];
      case Tick => FlushedAll(b);
      case Return => FlushedAll(b);
      case _ =>
    }
  }

  /** Sent and buffered together are exactly what has been received, in order. */
  lemma {:induction false} RunReceives<T>(b: Batcher<T>, steps: seq<Step<T>>)
    ensures InHand(Run(b, steps)) == InHand(b) + Received(b, steps)
    decreases |steps|
  {
    if steps == [] {
      assert InHand(b) + [] == InHand(b);
    } else {
      var next := Apply(b, steps[0]);
      StepReceives(b, steps[0]);
      RunReceives(next, steps[1..]);
      Regroup(InHand(b), Takes(b, steps[0]), Received(next, steps[1..]));
    }
  }

  lemma FreshReceives<T>(depth: nat, maxBatch: nat, steps: seq<Step<T>>)
    ensures InHand(Run(Fresh(depth, maxBatch), steps)) == Received(Fresh(depth, maxBatch), steps)
  {
    hide Run, Received;
    RunReceives(Fresh<T>(depth, maxBatch), steps);
    assert InHand(Fresh<T>(depth, maxBatch)) == [];
  }

  /** The received entries are the first of the accepted ones: what was written first is
      received first, and what has not been received waits in the queue. */
  lemma ReceivedInOrder<T>(depth: nat, maxBatch: nat, steps: seq<Step<T>>)
    requires maxBatch >= 1
    ensures var start := Fresh(depth, maxBatch);
      Accepted(start, steps) == Received(start, steps) + Run(start, steps).queue
  {
    hide Run, Received, Accepted, Flatten;
    Conservation(depth, maxBatch, steps);
    FreshReceives<T>(depth, maxBatch, steps);
  }

  /** The delivery law: after a tick while the loop is serving, exactly the entries it has
      received so far have been sent, in order, and nothing waits in the buffer. */
  lemma TickDelivers<T>(depth: nat, maxBatch: nat, steps: seq<Step<T>>)
    requires Run(Fresh<T>(depth, maxBatch), steps).stage == Serving
    ensures var start := Fresh(depth, maxBatch);
            var end := Run(start, steps + [Tick]);
      end.buf == [] && Flatten(end.sent) == Received(start, steps)
  {
    hide Run, Received, Flatten, Flushed;
    var start: Batcher<T> := Fresh(depth, maxBatch);
    RunThen(start, steps, Tick);
    FreshReceives<T>(depth, maxBatch, steps);
    FlushedAll(Run(start, steps));
  }

  predicate Prefix<T(==)>(s: seq<T>, t: seq<T>) {
    |s| <= |t| && s == t[..|s|]
  }

  lemma FlushedGrows<T>(b: Batcher<T>)
    ensures Prefix(Flatten(b.sent), Flatten(Flushed(b).sent))
  {
    FlushedAll(b);
  }

  lemma StepGrows<T>(b: Batcher<T>, st: Step<T>)
    ensures Prefix(Flatten(b.sent), Flatten(Apply(b, st).sent))
  {
    hide Flatten, Flushed;
    FlushedGrows(b);
    if st.Receive? && Enabled(b, st) {
      FlushedGrows(b.(queue := b.queue[1..], buf := b.buf + [b.queue[0]]));
    }
  }

  lemma PrefixTransitive<T>(s: seq<T>, t: seq<T>, u: seq<T>)
    requires Prefix(s, t) && Prefix(t, u)
    ensures Prefix(s, u)
  {
  }

  lemma {:induction false} SentGrows<T>(b: Batcher<T>, steps: seq<Step<T>>)
    ensures Prefix(Flatten(b.sent), Flatten(Run(b, steps).sent))
    decreases |steps|
  {
    hide Flatten, Apply;
    if steps != [] {
      var next := Apply(b, steps[0]);
      StepGrows(b, steps[0]);
      SentGrows(next, steps[1..]);
      PrefixTransitive(Flatten(b.sent), Flatten(next.sent), Flatten(Run(b, steps).sent));
    }
  }

  /** So an entry that has been received is among those sent from the next tick on, for
      the rest of every run. */
  lemma TickedStaysSent<T>(depth: nat, maxBatch: nat, steps: seq<Step<T>>, later: seq<Step<T>>)
    requires Run(Fresh<T>(depth, maxBatch), steps).stage == Serving
    ensures var start := Fresh(depth, maxBatch);
      Prefix(Received(start, steps), Flatten(Run(start, steps + [Tick] + later).sent))
  {
    var start: Batcher<T> := Fresh(depth, maxBatch);
    TickDelivers(depth, maxBatch, steps);
    RunConcat(start, steps + [Tick], later);
    SentGrows(Run(start, steps + [Tick]), later);
  }

  function Receives<T>(n: nat): (steps: seq<Step<T>>)
    ensures |steps| == n
  {
    if n == 0 then [] else [Receive] + Receives(n - 1)
  }

  /** As many receives as there are entries waiting take them all. */
  lemma {:induction false} ReceivesEmpty<T>(b: Batcher<T>, n: nat)
    requires n == |b.queue| && (b.stage == Serving || b.stage == Draining)
    ensures var end := Run(b, Receives(n));
      && end.queue == [] && end.stage == b.stage && end.closed == b.closed
      && Received(b, Receives(n)) == b.queue
    decreases n
  {
    if n > 0 {
      var rest: seq<Step<T>> := Receives(n - 1);
      assert Receives<T>(n)[0] == Receive && Receives<T>(n)[1..] == rest;
      ReceivesEmpty(Apply(b, Receive), n - 1);
      assert b.queue == [b.queue[0]] + b.queue[1..];
    }
  }

  /** They are then in the loop's hands, behind what was there. */
  lemma ReceivesAll<T>(b: Batcher<T>, n: nat)
    requires n == |b.queue| && (b.stage == Serving || b.stage == Draining)
    ensures var end := Run(b, Receives(n));
      end.queue == [] && end.stage == b.stage && end.closed == b.closed && InHand(end) == InHand(b) + b.queue
  {
    hide InHand;
    ReceivesEmpty(b, n);
    RunReceives(b, Receives(n));
  }

  /** With quiet writers, as many receives as entries are waiting and one tick send
      everything that was accepted. */
  lemma QuietTickSendsAll<T>(depth: nat, maxBatch: nat, steps: seq<Step<T>>, b: Batcher<T>)
    requires maxBatch >= 1 && b == Run(Fresh(depth, maxBatch), steps) && b.stage == Serving
    ensures var start := Fresh(depth, maxBatch);
            var end := Run(start, steps + Receives(|b.queue|) + [Tick]);
      Flatten(end.sent) == Accepted(start, steps) && end.buf == [] && end.queue == []
  {
    hide Run, Accepted, Flatten, Flushed, Receives, Fresh;
    var start: Batcher<T> := Fresh(depth, maxBatch);
    var n := |b.queue|;
    Conservation(depth, maxBatch, steps);
    RunConcat(start, steps, Receives(n));
    RunThen(start, steps + Receives(n), Tick);
    ReceivesAll(b, n);
    FlushedAll(Run(b, Receives(n)));
    FlushedKeeps(Run(b, Receives(n)));
  }

  lemma FlushedKeeps<T>(b: Batcher<T>)
    ensures Flushed(b).queue == b.queue && Flushed(b).stage == b.stage
  {
  }

  /** And closing sends everything: the loop notices, takes what is waiting, looks once
      more and returns. */
  lemma CloseSendsAll<T>(depth: nat, maxBatch: nat, steps: seq<Step<T>>, b: Batcher<T>)
    requires maxBatch >= 1 && b == Run(Fresh(depth, maxBatch), steps) && b.stage == Serving
    ensures var start := Fresh(depth, maxBatch);
            var end := Run(start, steps + [Close] + [SeeDone] + Receives(|b.queue|) + [LastLook] + [Return]);
      end.stage == Returned && Flatten(end.sent) == Accepted(start, steps) && end.buf == [] && end.queue == []
  {
    hide Run, Accepted, Flatten, Flushed, Receives, Fresh;
    var start: Batcher<T> := Fresh(depth, maxBatch);
    var n := |b.queue|;
    var c := Apply(Apply(b, Close), SeeDone);
    Conservation(depth, maxBatch, steps);
    RunThen(start, steps, Close);
    RunThen(start, steps + [Close], SeeDone);
    RunConcat(start, steps + [Close] + [SeeDone], Receives(n));
    RunThen(start, steps + [Close] + [SeeDone] + Receives(n), LastLook);
    RunThen(start, steps + [Close] + [SeeDone] + Receives(n) + [LastLook], Return);
    ReceivesAll(c, n);
    var d := Run(c, Receives(n));
    FlushedAll(d.(stage := Leaving));
    FlushedKeeps(d.(stage := Leaving));
    assert InHand(c) == InHand(b);
  }

  // ---- the object ----

  const DefaultQueueDepth: nat := 4096
  const DefaultMaxBatch: nat := 256

  class Batch<T> {
    const depth: nat
    const maxBatch: nat
    var queue: seq<T>
    var buf: seq<T>
    var sent: seq<seq<T>>
    var dropped: nat
    var closed: bool
    var stage: Stage

    ghost function View(): Batcher<T>
      reads this
    {
      Batcher(depth, maxBatch, queue, buf, sent, dropped, closed, stage)
    }

    constructor ()
      ensures View() == Fresh(4096, 256) && Good(View())
    {
      depth, maxBatch := DefaultQueueDepth, DefaultMaxBatch;
      queue, buf, sent := [], [], [];
      dropped, closed, stage := 0, false, Serving;
    }

    /** Never blocks: a full queue drops the entry. */
    method Enqueue(entry: T)
      modifies this`queue, this`dropped
      ensures View() == Apply(old(View()), Write(entry))
      ensures |old(queue)| < depth ==> queue == old(queue) + [entry] && dropped == old(dropped)
      ensures |old(queue)| >= depth ==> queue == old(queue) && dropped == old(dropped) + 1
    {
      if |queue| < depth {
        queue := queue + [entry];
      } else {
        dropped := dropped + 1;
      }
    }

    method Flush()
      modifies this`buf, this`sent
      ensures View() == Flushed(old(View()))
      ensures buf == [] && sent == if old(buf) == [] then old(sent) else old(sent) + [old(buf)]
    {
      if |buf| == 0 {
        return;
      }
      sent := sent + [buf];
      buf := [];
    }

    method Take()
      requires queue != []
      modifies this`queue, this`buf, this`sent
      ensures View() == Taken(old(View()))
    {
      var e := queue[0];
      queue := queue[1..];
      buf := buf + [e];
      if |buf| >= maxBatch {
        Flush();
      }
    }

    method SignalClose()
      modifies this`closed
      ensures View() == Apply(old(View()), Close)
    {
      closed := true;
    }

    /** One pass of the loop, on the event the select chose, or one act of a writer or a
        closer. */
    method Act(st: Step<T>)
      modifies this
      ensures View() == Apply(old(View()), st)
    {
      match st
      case Write(e) => Enqueue(e);
      case Close => SignalClose();
      case Receive =>
        if queue != [] && (stage == Serving || stage == Draining) {
          Take();
        }
      case Tick =>
        if stage == Serving {
          Flush();
        }
      case SeeDone =>
        if stage == Serving && closed {
          stage := Draining;
        }
      case LastLook =>
        if stage == Draining && queue == [] {
          stage := Leaving;
        }
      case Return =>
        if stage == Leaving {
          Flush();
          stage := Returned;
        }
    }

    /** The loop under any schedule of steps. */
    method Serve(schedule: seq<Step<T>>)
      modifies this
      ensures View() == Run(old(View()), schedule)
    {
      for i := 0 to |schedule|
        invariant Run(View(), schedule[i..]) == Run(old(View()), schedule)
      {
        assert schedule[i..][1..] == schedule[i + 1..];
        Act(schedule[i]);
      }
    }

    method TakeHolding()
      requires queue != [] && stage != Returned && Good(View())
      modifies this`queue, this`buf, this`sent
      ensures Good(View()) && |queue| == |old(queue)| - 1
      ensures Held(View()) == old(Held(View()))
    {
      TakenHeld(View());
      Take();
    }

    /** The drain loop once writers are quiet: it ends, and everything that was buffered
        or queued has been sent, in order. */
    method Drain()
      requires Good(View()) && stage == Draining
      modifies this`queue, this`buf, this`sent, this`stage
      ensures stage == Returned && queue == [] && buf == []
      ensures Flatten(sent) == old(Held(View()))
    {
      while |queue| > 0
        invariant Good(View()) && stage == Draining
        invariant Held(View()) == old(Held(View()))
        decreases |queue|
      {
        TakeHolding();
      }
      FlushedHeld(View());
      Flush();
      assert Held(View()) == Flatten(sent);
      stage := Returned;
    }
  }
}
