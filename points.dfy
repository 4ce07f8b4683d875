/**
  Points of the vector collection as the maintenance scripts see them, the
  payload updates they send, and `flush_payload`, which sends one update per
  batch of ids.
 */
module PointStore {
  import opened Json
  import opened Batching

  /** A point id: an unsigned integer or a UUID string. */
  datatype PointId = IntId(n: nat) | UuidId(u: string)

  /** A point returned by a scroll: its id and its payload (`payload or {}`). */
  datatype Point = Point(id: PointId, payload: Payload)

  /** One `set_payload` call: the points it updates and the payload it merges in. */
  datatype Write = SetPayload(points: seq<PointId>, payload: Payload)

  /** The ids of all writes, in the order they were sent. */
  function Flatten(writes: seq<Write>): seq<PointId> {
    if writes == [] then [] else writes[0].points + Flatten(writes[1..])
  }

  /** `xs[i:]` for a non-negative `i`. */
  function Drop<T>(xs: seq<T>, i: nat): seq<T> {
    if i < |xs| then xs[i..] else []
  }

  /** Reference definition of the batching: the first `batch` ids, then the
      batches of the rest. */
  function Batches(ids: seq<PointId>, payload: Payload, batch: nat): seq<Write>
    requires batch >= 1
    decreases |ids|
  {
    if ids == [] then []
    else [SetPayload(Slice(ids, 0, batch), payload)] + Batches(Drop(ids, batch), payload, batch)
  }

  lemma ConcatAssoc<T>(a: seq<T>, b: seq<T>, c: seq<T>)
    ensures a + (b + c) == (a + b) + c
  {
  }

  /** The batches from index `i` on: the slice `ids[i:i + batch]`, then the batches from `i + batch`. */
  lemma BatchesStep(ids: seq<PointId>, payload: Payload, batch: nat, i: nat)
    requires batch >= 1 && i < |ids|
    ensures Batches(Drop(ids, i), payload, batch)
      == [SetPayload(Slice(ids, i, i + batch), payload)] + Batches(Drop(ids, i + batch), payload, batch)
  {
    assert Slice(Drop(ids, i), 0, batch) == Slice(ids, i, i + batch);
    assert Drop(Drop(ids, i), batch) == Drop(ids, i + batch);
  }

  /** One turn of `flush_payload`: sending the slice at `i` leaves the batches from `i + batch` to go. */
  lemma FlushStep(ids: seq<PointId>, payload: Payload, batch: nat, i: nat, writes: seq<Write>)
    requires batch >= 1 && i < |ids|
    requires writes + Batches(Drop(ids, i), payload, batch) == Batches(ids, payload, batch)
    ensures (writes + [SetPayload(Slice(ids, i, i + batch), payload)]) + Batches(Drop(ids, i + batch), payload, batch)
      == Batches(ids, payload, batch)
  {
    BatchesStep(ids, payload, batch, i);
    ConcatAssoc(writes, [SetPayload(Slice(ids, i, i + batch), payload)], Batches(Drop(ids, i + batch), payload, batch));
  }

  /** `flush_payload(q, ids, payload)`: `ids[i:i + batch]` for `i` in
      `range(0, len(ids), batch)`, each sent with the same payload. */
  method FlushPayload(ids: seq<PointId>, payload: Payload, batch: nat) returns (writes: seq<Write>)
    requires batch >= 1
    ensures writes == Batches(ids, payload, batch)
  {
    writes := [];
    var i := 0;
    while i < |ids|
      invariant writes + Batches(Drop(ids, i), payload, batch) == Batches(ids, payload, batch)
    {
      var w := SetPayload(Slice(ids, i, i + batch), payload);
      FlushStep(ids, payload, batch, i, writes);
      writes := writes + [w];
      i := i + batch;
    }
  }

  /** The ids of two runs of writes, one after the other. */
  lemma {:induction false} FlattenConcat(a: seq<Write>, b: seq<Write>)
    ensures Flatten(a + b) == Flatten(a) + Flatten(b)
    decreases |a|
  {
    if a != [] {
      assert (a + b)[0] == a[0] && (a + b)[1..] == a[1..] + b;
      FlattenConcat(a[1..], b);
      ConcatAssoc(a[0].points, Flatten(a[1..]), Flatten(b));
    } else {
      assert a + b == b;
    }
  }

  /** An id one write updates is among the ids of the run of writes it belongs to. */
  lemma {:induction false} InFlatten(writes: seq<Write>, i: nat, x: PointId)
    requires i < |writes| && x in writes[i].points
    ensures x in Flatten(writes)
    decreases i
  {
    if i > 0 {
      assert writes[1..][i - 1] == writes[i];
      InFlatten(writes[1..], i - 1, x);
    }
  }

  /** The batches send every id exactly once and in order: together they are `ids`. */
  lemma {:induction false} BatchesCover(ids: seq<PointId>, payload: Payload, batch: nat)
    requires batch >= 1
    ensures Flatten(Batches(ids, payload, batch)) == ids
    decreases |ids|
  {
    if ids != [] {
      var w := Batches(ids, payload, batch);
      BatchesCover(Drop(ids, batch), payload, batch);
      assert w[1..] == Batches(Drop(ids, batch), payload, batch);
      assert Slice(ids, 0, batch) + Drop(ids, batch) == ids;
    }
  }

  /** There are `ceil(len(ids) / batch)` batches, each with between one and
      `batch` ids, all with the given payload. */
  lemma {:induction false} BatchesShape(ids: seq<PointId>, payload: Payload, batch: nat)
    requires batch >= 1
    ensures |Batches(ids, payload, batch)| == CeilDiv(|ids|, batch)
    ensures forall s :: 0 <= s < |Batches(ids, payload, batch)| ==>
      1 <= |Batches(ids, payload, batch)[s].points| <= batch &&
      Batches(ids, payload, batch)[s].payload == payload
    decreases |ids|
  {
    if ids != [] {
      var w := Batches(ids, payload, batch);
      BatchesShape(Drop(ids, batch), payload, batch);
      assert w[1..] == Batches(Drop(ids, batch), payload, batch);
      assert |Drop(ids, batch)| == if |ids| <= batch then 0 else |ids| - batch;
      forall s | 0 <= s < |w| ensures 1 <= |w[s].points| <= batch && w[s].payload == payload {
        if s > 0 {
          assert w[s] == w[1..][s - 1];
        }
      }
    }
  }
}
