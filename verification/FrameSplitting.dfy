/** publish_encoded's greedy batching under the frame limit, and send_frame's own check. */
module FrameSplitting {
  import opened Prelude
  import opened Wire
  import opened Commands
  import opened CommandReader
  import ProducerModel
  import ReadChain

  /** PublishCommand::serialized_size for a batch. */
  function BatchSize(batch: seq<Entry>): nat {
    BASE_SIZE + SizeSum(EntrySize, batch)
  }

  lemma BatchSizeIsSerializedSize(publisherId: nat, batch: seq<Entry>)
    ensures SerializedSize(Plain(Publish(publisherId, batch))) == BatchSize(batch)
    ensures |FrameBytes(Plain(Publish(publisherId, batch)))| == BatchSize(batch)
  {
    AnnouncedSizeIsExact(Plain(Publish(publisherId, batch)));
  }

  /** The accumulator's test is on the size of the publish frame a message makes alone. */
  lemma AdmissionIsFrameSize(limit: nat, publisherId: nat, e: Entry)
    ensures ProducerModel.FitsAccumulator(limit, |e.body|) <==>
            limit == 0 || SerializedSize(Plain(Publish(publisherId, [e]))) <= limit
  {
    SizeSumSnoc([], e);
    assert [] + [e] == [e];
    BatchSizeIsSerializedSize(publisherId, [e]);
  }

  /**
   What send_frame asks of a batch. It counts the four bytes of the length prefix too, zero
   meaning no limit; the buffer has to hold the frame; and the writers have to be able to
   announce the number of entries and the length of each body.
   */
  predicate Accepts(limit: nat, batch: seq<Entry>) {
    && (limit == 0 || BatchSize(batch) + 4 <= limit)
    && ReadChain.Holds(BatchSize(batch))
    && ArrayOk(EntryOk, batch)
  }

  /** These are the batches send_frame lets out, for every publisher id. */
  lemma AcceptsIsSendFrame(limit: nat, publisherId: nat, batch: seq<Entry>)
    requires publisherId < 256
    ensures ReadChain.SendFrame(limit, Plain(Publish(publisherId, batch))).Some? <==> Accepts(limit, batch)
  {
    BatchSizeIsSerializedSize(publisherId, batch);
  }

  predicate Overflows(limit: nat, batch: seq<Entry>, e: Entry) {
    limit > 0 && BatchSize(batch) + EntrySize(e) > limit
  }

  /** The batches publish_encoded forms after `batch` has been collected. */
  function Batches(limit: nat, batch: seq<Entry>, es: seq<Entry>): seq<seq<Entry>>
    decreases |es|
  {
    if es == [] then (if batch == [] then [] else [batch])
    else if Overflows(limit, batch, es[0]) then [batch] + Batches(limit, [es[0]], es[1..])
    else Batches(limit, batch + [es[0]], es[1..])
  }

  /** send_frame lets every batch through. */
  predicate PublishOk(limit: nat, es: seq<Entry>) {
    forall k :: 0 <= k < |Batches(limit, [], es)| ==> Accepts(limit, Batches(limit, [], es)[k])
  }

  /** publish_encoded: batches go out one by one, and the first rejected one ends the call. */
  method PublishEncoded(limit: nat, es: seq<Entry>) returns (sent: seq<seq<Entry>>, ok: bool)
    ensures sent <= Batches(limit, [], es)
    ensures forall b :: b in sent ==> Accepts(limit, b)
    ensures ok ==> sent == Batches(limit, [], es)
    ensures ok <==> PublishOk(limit, es)
    ensures !ok ==> |sent| < |Batches(limit, [], es)| && !Accepts(limit, Batches(limit, [], es)[|sent|])
  {
    sent := [];
    var batch: seq<Entry> := [];
    var currentSize := BASE_SIZE;
    for i := 0 to |es|
      invariant currentSize == BatchSize(batch)
      invariant forall b :: b in sent ==> Accepts(limit, b)
      invariant sent + Batches(limit, batch, es[i..]) == Batches(limit, [], es)
    {
      assert es[i..][1..] == es[i + 1..];
      SizeSumSnoc(batch, es[i]);
      SizeSumSnoc([], es[i]);
      var added := EntrySize(es[i]);
      if limit > 0 && currentSize + added > limit {
        ghost var rest := Batches(limit, [es[i]], es[i + 1..]);
        assert sent + ([batch] + rest) == (sent + [batch]) + rest;
        if !Accepts(limit, batch) {
          assert Batches(limit, [], es)[|sent|] == batch;
          return sent, false;
        }
        sent := sent + [batch];
        batch, currentSize := [], BASE_SIZE;
        assert [] + [es[i]] == [es[i]];
      }
      batch := batch + [es[i]];
      currentSize := currentSize + added;
    }
    ok := true;
    assert es[|es|..] == [];
    if batch != [] {
      if !Accepts(limit, batch) {
        assert Batches(limit, [], es)[|sent|] == batch;
        return sent, false;
      }
      sent := sent + [batch];
    }
  }

  lemma {:induction false} SizeSumAppend(a: seq<Entry>, b: seq<Entry>)
    ensures SizeSum(EntrySize, a + b) == SizeSum(EntrySize, a) + SizeSum(EntrySize, b)
    decreases |a|
  {
    if a == [] {
      assert a + b == b;
    } else {
      assert (a + b)[1..] == a[1..] + b;
      SizeSumAppend(a[1..], b);
    }
  }

  lemma SizeSumSnoc(a: seq<Entry>, e: Entry)
    ensures BatchSize(a + [e]) == BatchSize(a) + EntrySize(e)
  {
    SizeSumAppend(a, [e]);
    assert [e][1..] == [];
  }

  /** Nothing is lost, repeated or reordered. */
  lemma {:induction false} BatchesConcatenate(limit: nat, batch: seq<Entry>, es: seq<Entry>)
    ensures Flatten(Batches(limit, batch, es)) == batch + es
    decreases |es|
  {
    if es == [] {
      if batch != [] { FlattenSnoc([], batch); }
    } else if Overflows(limit, batch, es[0]) {
      BatchesConcatenate(limit, [es[0]], es[1..]);
      var rest := Batches(limit, [es[0]], es[1..]);
      assert ([batch] + rest)[1..] == rest;
      assert [es[0]] + es[1..] == es;
    } else {
      BatchesConcatenate(limit, batch + [es[0]], es[1..]);
      assert (batch + [es[0]]) + es[1..] == batch + es;
    }
  }

  ghost predicate Within(limit: nat, batches: seq<seq<Entry>>) {
    forall k :: 0 <= k < |batches| ==> BatchSize(batches[k]) <= limit
  }

  /** When each message fits by itself, every batch fits and none is empty. */
  lemma {:induction false} BatchesFit(limit: nat, batch: seq<Entry>, es: seq<Entry>)
    requires limit > 0 && forall e :: e in es ==> BatchSize([]) + EntrySize(e) <= limit
    requires BatchSize(batch) <= limit
    ensures Within(limit, Batches(limit, batch, es))
    ensures forall k :: 0 <= k < |Batches(limit, batch, es)| ==> Batches(limit, batch, es)[k] != []
    decreases |es|
  {
    if es != [] {
      assert es[0] in es;
      SizeSumSnoc([], es[0]);
      SizeSumSnoc(batch, es[0]);
      assert [] + [es[0]] == [es[0]];
      if Overflows(limit, batch, es[0]) {
        BatchesFit(limit, [es[0]], es[1..]);
      } else {
        BatchesFit(limit, batch + [es[0]], es[1..]);
      }
    }
  }

  /** `s` ends with `t`. */
  ghost predicate EndsWith(s: seq<Entry>, t: seq<Entry>) {
    |t| <= |s| && s[|s| - |t|..] == t
  }

  lemma EndsWithTail(s: seq<Entry>, a: seq<Entry>, b: seq<Entry>, z: seq<Entry>)
    requires EndsWith(s, a + b) && EndsWith(s, z) && |b| <= |z|
    ensures EndsWith(z, b)
  {
    assert forall i :: 0 <= i < |b| ==> b[i] == (a + b)[|a| + i];
    assert forall i :: 0 <= i < |z| ==> z[i] == s[|s| - |z| + i];
  }

  /** A batch that reaches beyond `z` into `y` holds no more than `y` does. */
  lemma CutSize(y: seq<Entry>, z: seq<Entry>, batch: seq<Entry>, es: seq<Entry>)
    requires EndsWith(y + z, batch + es) && |es| > |z|
    ensures BatchSize(batch + [es[0]]) <= BatchSize(y)
  {
    var s, t := y + z, batch + es;
    var skip := |s| - |t|;
    var part := batch + [es[0]];
    assert |part| <= |y| - skip;
    assert forall i :: 0 <= i < |part| ==> part[i] == t[i] && t[i] == s[skip + i] && s[skip + i] == y[skip + i];
    assert y[skip..skip + |part|] == part;
    assert y == y[..skip] + (part + y[skip + |part|..]);
    SizeSumAppend(y[..skip], part + y[skip + |part|..]);
    SizeSumAppend(part, y[skip + |part|..]);
  }

  /** Greedy stays ahead: any split covering at least what is left uses at least as many batches. */
  lemma {:induction false} GreedyStaysAhead(limit: nat, batch: seq<Entry>, es: seq<Entry>, ys: seq<seq<Entry>>)
    requires limit > 0 && Within(limit, ys) && EndsWith(Flatten(ys), batch + es)
    ensures |Batches(limit, batch, es)| <= |ys|
    decreases |es|
  {
    if es == [] {
      if batch != [] { assert ys != []; }
    } else if !Overflows(limit, batch, es[0]) {
      assert (batch + [es[0]]) + es[1..] == batch + es;
      GreedyStaysAhead(limit, batch + [es[0]], es[1..], ys);
    } else {
      assert ys != [];
      var z := Flatten(ys[1..]);
      SizeSumSnoc(batch, es[0]);
      if |es| > |z| { CutSize(ys[0], z, batch, es); }
      assert Within(limit, ys[1..]) by { assert forall k :: 0 <= k < |ys[1..]| ==> ys[1..][k] == ys[k + 1]; }
      assert EndsWith(Flatten(ys), z);
      EndsWithTail(Flatten(ys), batch, es, z);
      assert [es[0]] + es[1..] == es;
      GreedyStaysAhead(limit, [es[0]], es[1..], ys[1..]);
    }
  }

  /**
   Main result. With a positive limit under which each message fits by itself, the batches
   of publish_encoded concatenate to the input, none is empty, each one's serialized size
   is within the limit, and no order-preserving split within the limit has fewer batches.
   */
  lemma SplitIsOptimal(limit: nat, es: seq<Entry>)
    requires limit > 0 && forall e :: e in es ==> BatchSize([]) + EntrySize(e) <= limit
    ensures var bs := Batches(limit, [], es);
            && Flatten(bs) == es && Within(limit, bs)
            && (forall k :: 0 <= k < |bs| ==> bs[k] != [])
            && (forall ys :: Flatten(ys) == es && Within(limit, ys) ==> |bs| <= |ys|)
  {
    var bs := Batches(limit, [], es);
    BatchesConcatenate(limit, [], es);
    assert [] + es == es;
    if es != [] { assert es[0] in es; BatchesFit(limit, [], es); }
    forall ys | Flatten(ys) == es && Within(limit, ys) ensures |bs| <= |ys| {
      GreedyStaysAhead(limit, [], es, ys);
    }
  }

  /** Without a limit everything goes into one frame. */
  lemma {:induction false} NoLimitOneBatch(batch: seq<Entry>, es: seq<Entry>)
    ensures Batches(0, batch, es) == if batch + es == [] then [] else [batch + es]
    decreases |es|
  {
    if es == [] {
      assert batch + es == batch;
    } else {
      NoLimitOneBatch(batch + [es[0]], es[1..]);
      assert (batch + [es[0]]) + es[1..] == batch + es;
    }
  }

  // ---- the two bounds differ by the length prefix

  /** Admitted by the accumulator, yet too big for any frame that send_frame lets through. */
  predicate InGap(limit: nat, e: Entry) {
    limit > 0 && BASE_SIZE + EntrySize(e) <= limit < BASE_SIZE + EntrySize(e) + 4
  }

  lemma {:induction false} SizeOfMember(batch: seq<Entry>, e: Entry)
    requires e in batch
    ensures BASE_SIZE + EntrySize(e) <= BatchSize(batch)
    decreases |batch|
  {
    if e != batch[0] { SizeOfMember(batch[1..], e); }
  }

  /** A message in the gap makes every publish that contains it fail, resends included. */
  lemma GapMessageCannotBePublished(limit: nat, es: seq<Entry>, e: Entry)
    requires e in es && InGap(limit, e)
    ensures !PublishOk(limit, es)
  {
    BatchesConcatenate(limit, [], es);
    assert [] + es == es;
    var k := MemberOfFlatten(Batches(limit, [], es), e);
    SizeOfMember(Batches(limit, [], es)[k], e);
  }

  /** So does a body whose length write_blob cannot announce. */
  lemma OversizedBodyCannotBePublished(limit: nat, es: seq<Entry>, e: Entry)
    requires e in es && |e.body| > MAX_BLOB
    ensures !PublishOk(limit, es)
  {
    BatchesConcatenate(limit, [], es);
    assert [] + es == es;
    var bs := Batches(limit, [], es);
    var k := MemberOfFlatten(bs, e);
    var i :| 0 <= i < |bs[k]| && bs[k][i] == e;
    assert !EntryOk(bs[k][i]);
  }

  lemma {:induction false} CountOfSize(batch: seq<Entry>)
    ensures 12 * |batch| <= SizeSum(EntrySize, batch)
    decreases |batch|
  {
    if batch != [] { CountOfSize(batch[1..]); }
  }

  /** The largest frame, length prefix included: the negotiated limit, or what a buffer holds. */
  function FrameLimit(limit: nat): nat {
    if limit == 0 then U32 - 1 else limit
  }

  lemma AcceptsExactly(limit: nat, batch: seq<Entry>)
    requires limit < U32
    ensures Accepts(limit, batch) <==> BatchSize(batch) + 4 <= FrameLimit(limit) && forall e :: e in batch ==> EntryOk(e)
  {
    CountOfSize(batch);
  }

  /**
   Main result. A publish_encoded call goes through exactly when every body has a length that
   can be announced and every batch leaves room for the length prefix.
   */
  lemma PublishExactly(limit: nat, es: seq<Entry>)
    requires limit < U32
    ensures PublishOk(limit, es) <==>
            && (forall e :: e in es ==> EntryOk(e))
            && (forall k :: 0 <= k < |Batches(limit, [], es)| ==> BatchSize(Batches(limit, [], es)[k]) + 4 <= FrameLimit(limit))
  {
    var bs := Batches(limit, [], es);
    BatchesConcatenate(limit, [], es);
    assert [] + es == es;
    forall k | 0 <= k < |bs|
      ensures Accepts(limit, bs[k]) <==> BatchSize(bs[k]) + 4 <= FrameLimit(limit) && forall e :: e in bs[k] ==> EntryOk(e)
    {
      AcceptsExactly(limit, bs[k]);
    }
    forall k, e | 0 <= k < |bs| && e in bs[k] ensures e in es { FlattenMember(bs, k, e); }
    forall e | e in es ensures exists k :: 0 <= k < |bs| && e in bs[k] {
      var k := MemberOfFlatten(bs, e);
    }
  }

  /** For one message admitted by the accumulator, publishing works exactly outside the gap and up to 2^31 - 1 bytes. */
  lemma SingleMessageExactly(limit: nat, e: Entry)
    requires limit < U32 && e.publishingId < U64 && ProducerModel.FitsAccumulator(limit, |e.body|)
    ensures PublishOk(limit, [e]) <==> !InGap(limit, e) && |e.body| <= MAX_BLOB
  {
    SizeSumSnoc([], e);
    assert [] + [e] == [e] && [e][1..] == [];
    var bs := Batches(limit, [], [e]);
    assert bs == Batches(limit, [e], []) == [[e]];
    assert bs[0] == [e];
    PublishExactly(limit, [e]);
  }

  /** Messages that are each far from the limit can still fill a batch that send_frame rejects. */
  lemma FullBatchCanBeRejected(a: Entry, b: Entry)
    requires |a.body| == 32 && |b.body| == 33
    ensures Batches(100, [], [a, b]) == [[a, b]] && BatchSize([a, b]) == 98 && !PublishOk(100, [a, b])
  {
    SizeSumSnoc([], a);
    SizeSumSnoc([a], b);
    assert [] + [a] == [a] && [a] + [b] == [a, b];
    assert [a, b][1..] == [b] && [b][1..] == [];
    assert Batches(100, [a], [b]) == Batches(100, [a, b], []);
    assert Batches(100, [], [a, b])[0] == [a, b];
  }
}
