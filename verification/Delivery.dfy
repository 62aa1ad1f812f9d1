/** From a log write to the collector: the batcher (internal/logging/exporter.go) and
    the Forward encoding of its batches (internal/logging/msgpack.go) together. Every
    batch goes out on a connection of its own, here one that does not fail. */
module Delivery {
  import opened Bytes
  import opened MsgPack
  import opened MsgPackTheorems
  import opened MsgPackWriter
  import Batch

  /** What the collector reads from the connections, one payload after another. */
  function ReadAll(payloads: seq<Bytes>): Parsed<seq<Obj>>
    decreases |payloads|
  {
    if payloads == [] then Good([], []) else
    var earlier, last := ReadAll(payloads[..|payloads| - 1]), DecodeAll(payloads[|payloads| - 1]);
    if earlier.Bad? || last.Bad? then Bad else Good(earlier.value + last.value, [])
  }

  ghost function Payload(tag: Bytes, batch: seq<Entry>): Bytes {
    EncodeAll(Messages(tag, batch))
  }

  ghost function Payloads(tag: Bytes, batches: seq<seq<Entry>>): (ps: seq<Bytes>)
    ensures |ps| == |batches|
  {
    seq(|batches|, i requires 0 <= i < |batches| => Payload(tag, batches[i]))
  }

  lemma MessagesConcat(tag: Bytes, a: seq<Entry>, b: seq<Entry>)
    ensures Messages(tag, a + b) == Messages(tag, a) + Messages(tag, b)
  {
  }

  lemma FitConcat(tag: Bytes, a: seq<Entry>, b: seq<Entry>)
    requires EntriesFit(tag, a + b)
    ensures EntriesFit(tag, a) && EntriesFit(tag, b)
  {
    assert forall i :: 0 <= i < |a| ==> (a + b)[i] == a[i];
    assert forall i :: 0 <= i < |b| ==> (a + b)[|a| + i] == b[i];
  }

  lemma PayloadReads(tag: Bytes, batch: seq<Entry>)
    requires EntriesFit(tag, batch)
    ensures DecodeAll(Payload(tag, batch)) == Good(Messages(tag, batch), [])
  {
    PayloadIsRead(tag, batch);
  }

  lemma PayloadsSnoc(tag: Bytes, batches: seq<seq<Entry>>)
    requires batches != []
    ensures var n := |batches| - 1;
      Payloads(tag, batches) == Payloads(tag, batches[..n]) + [Payload(tag, batches[n])]
  {
  }

  lemma ReadSnoc(payloads: seq<Bytes>, last: Bytes, a: seq<Obj>, b: seq<Obj>)
    requires ReadAll(payloads) == Good(a, []) && DecodeAll(last) == Good(b, [])
    ensures ReadAll(payloads + [last]) == Good(a + b, [])
  {
    assert (payloads + [last])[..|payloads|] == payloads;
  }

  /** However the entries were cut into batches, the collector reads the same list. */
  lemma {:induction false} BatchingIsInvisible(tag: Bytes, batches: seq<seq<Entry>>)
    requires EntriesFit(tag, Batch.Flatten(batches))
    ensures ReadAll(Payloads(tag, batches)) == Good(Messages(tag, Batch.Flatten(batches)), [])
    decreases |batches|
  {
    if batches == [] {
      assert Messages(tag, []) == [];
    } else {
      var n := |batches| - 1;
      var earlier := Batch.Flatten(batches[..n]);
      FitConcat(tag, earlier, batches[n]);
      MessagesConcat(tag, earlier, batches[n]);
      BatchingIsInvisible(tag, batches[..n]);
      PayloadReads(tag, batches[n]);
      PayloadsSnoc(tag, batches);
      ReadSnoc(Payloads(tag, batches[..n]), Payload(tag, batches[n]),
               Messages(tag, earlier), Messages(tag, batches[n]));
    }
  }

  /** End to end, for every run of the batcher that has returned: the collector has read
      exactly one message for each write accepted before the last look at the queue, in
      the order of the writes, with its tag, its time and its record value for value. */
  lemma EveryAcceptedWriteIsRead(tag: Bytes, depth: nat, maxBatch: nat, steps: seq<Batch.Step<Entry>>)
      returns (before: seq<Batch.Step<Entry>>, during: seq<Batch.Step<Entry>>, after: seq<Batch.Step<Entry>>)
    requires maxBatch >= 1 && Batch.Run(Batch.Fresh(depth, maxBatch), steps).stage == Batch.Returned
    requires EntriesFit(tag, Batch.Accepted(Batch.Fresh(depth, maxBatch), steps))
    ensures steps == before + [Batch.LastLook] + during + [Batch.Return] + after && Batch.NoReturn(during)
    ensures Batch.Enabled(Batch.Run(Batch.Fresh(depth, maxBatch), before), Batch.LastLook)
    ensures var r := ReadAll(Payloads(tag, Batch.Run(Batch.Fresh(depth, maxBatch), steps).sent));
      r.Good? && r.rest == [] && MessagesFor(r.value, tag, Batch.Accepted(Batch.Fresh(depth, maxBatch), before))
  {
    before, during, after := Batch.EveryReturn(depth, maxBatch, steps);
    Batch.Conservation(depth, maxBatch, steps);
    SentIsRead(tag, Batch.Run(Batch.Fresh(depth, maxBatch), steps),
               Batch.Accepted(Batch.Fresh(depth, maxBatch), steps));
  }

  lemma SentIsRead(tag: Bytes, b: Batch.Batcher<Entry>, accepted: seq<Entry>)
    requires accepted == Batch.Flatten(b.sent) + b.buf + b.queue && EntriesFit(tag, accepted)
    ensures var r := ReadAll(Payloads(tag, b.sent));
      r.Good? && r.rest == [] && MessagesFor(r.value, tag, Batch.Flatten(b.sent))
  {
    FitConcat(tag, Batch.Flatten(b.sent) + b.buf, b.queue);
    FitConcat(tag, Batch.Flatten(b.sent), b.buf);
    BatchingIsInvisible(tag, b.sent);
    PayloadIsRead(tag, Batch.Flatten(b.sent));
  }
}
