/** The send queue of one connection: whole payloads, of which the first may be partly sent. */
module SendQueue {
  import opened Common

  type Bytes = seq<nat>

  datatype Queue = Queue(payloads: seq<Bytes>, offset: nat, queuedBytes: int, retainedBytes: int)

  const EMPTY: Queue := Queue([], 0, 0, 0)

  function Concat(payloads: seq<Bytes>): Bytes { if payloads == [] then [] else payloads[0] + Concat(payloads[1..]) }

  /** The bytes that have not been sent, in order. */
  function Unsent(q: Queue): Bytes
    requires Shaped(q)
  {
    if q.payloads == [] then [] else q.payloads[0][q.offset..] + Concat(q.payloads[1..])
  }

  /** No payload is empty and the first is not used up. */
  predicate Shaped(q: Queue) {
    && (forall i :: 0 <= i < |q.payloads| ==> q.payloads[i] != [])
    && (if q.payloads == [] then q.offset == 0 else q.offset < |q.payloads[0]|)
  }

  /** The counters are the sizes they stand for. */
  ghost predicate Counted(q: Queue)
    requires Shaped(q)
  {
    q.queuedBytes == |Unsent(q)| && q.retainedBytes == |Concat(q.payloads)|
  }

  ghost predicate Valid(q: Queue) { Shaped(q) && Counted(q) }

  function Append(q: Queue, bytes: Bytes): Queue {
    q.(payloads := q.payloads + [bytes], queuedBytes := q.queuedBytes + |bytes|, retainedBytes := q.retainedBytes + |bytes|)
  }

  /** What is handed to the kernel. */
  function Front(q: Queue): Bytes
    requires Shaped(q) && q.payloads != []
  {
    q.payloads[0][q.offset..]
  }

  function Consume(q: Queue, n: nat): Queue
    requires Shaped(q) && q.payloads != [] && n <= |Front(q)|
  {
    if q.offset + n == |q.payloads[0]| then
      Queue(q.payloads[1..], 0, q.queuedBytes - n, q.retainedBytes - |q.payloads[0]|)
    else q.(offset := q.offset + n, queuedBytes := q.queuedBytes - n)
  }

  // What the operations mean for the byte stream.

  lemma {:induction false} ConcatAppend(payloads: seq<Bytes>, p: Bytes)
    ensures Concat(payloads + [p]) == Concat(payloads) + p
  {
    if payloads == [] {
      assert payloads + [p] == [p] && [p][1..] == [];
    } else {
      assert (payloads + [p])[1..] == payloads[1..] + [p];
      ConcatAppend(payloads[1..], p);
    }
  }

  /** An accepted payload goes to the end of the stream. */
  lemma AppendExtends(q: Queue, bytes: Bytes)
    requires Valid(q) && bytes != []
    ensures Valid(Append(q, bytes)) && Unsent(Append(q, bytes)) == Unsent(q) + bytes
  {
    var q2 := Append(q, bytes);
    ConcatAppend(q.payloads, bytes);
    if q.payloads == [] {
      assert q2.payloads == [bytes] && Concat(q2.payloads[1..]) == [];
    } else {
      assert q2.payloads[1..] == q.payloads[1..] + [bytes];
      ConcatAppend(q.payloads[1..], bytes);
    }
  }

  lemma Whole(payloads: seq<Bytes>)
    ensures payloads != [] ==> payloads[0][0..] + Concat(payloads[1..]) == Concat(payloads)
  {
    if payloads != [] { assert payloads[0][0..] == payloads[0]; }
  }

  lemma Prefix(front: Bytes, rest: Bytes, n: nat)
    requires n <= |front|
    ensures (front + rest)[n..] == front[n..] + rest && (front + rest)[..n] == front[..n]
  {
  }

  /** The first payload is used up: it leaves the queue. */
  lemma ConsumeWhole(q: Queue)
    requires Valid(q) && q.payloads != []
    ensures var n := |Front(q)|; Valid(Consume(q, n)) && Unsent(Consume(q, n)) == Concat(q.payloads[1..])
  {
    var q2 := Consume(q, |Front(q)|);
    Whole(q.payloads[1..]);
    assert q2.payloads == q.payloads[1..] && q2.offset == 0;
    assert Shaped(q2) && Unsent(q2) == Concat(q.payloads[1..]);
    assert |Unsent(q)| == |Front(q)| + |Concat(q.payloads[1..])|;
    assert |Concat(q.payloads)| == |q.payloads[0]| + |Concat(q.payloads[1..])|;
  }

  lemma ConsumePart(q: Queue, n: nat)
    requires Valid(q) && q.payloads != [] && n < |Front(q)|
    ensures Valid(Consume(q, n)) && Unsent(Consume(q, n)) == Front(q)[n..] + Concat(q.payloads[1..])
  {
    hide Concat;
    var q2 := q.(offset := q.offset + n, queuedBytes := q.queuedBytes - n);
    assert Consume(q, n) == q2 && Shaped(q2);
    assert q.payloads[0][q.offset + n..] == Front(q)[n..];
    assert Unsent(q2) == Front(q)[n..] + Concat(q.payloads[1..]);
  }

  /** A completion of n bytes takes exactly the next n bytes off the stream. */
  lemma ConsumeAdvances(q: Queue, n: nat)
    requires Valid(q) && q.payloads != [] && n <= |Front(q)|
    ensures Valid(Consume(q, n)) && n <= |Unsent(q)| && Unsent(Consume(q, n)) == Unsent(q)[n..]
    ensures Front(q)[..n] == Unsent(q)[..n]
  {
    hide Consume, Concat, Counted;
    Prefix(Front(q), Concat(q.payloads[1..]), n);
    if n == |Front(q)| {
      ConsumeWhole(q);
      assert Front(q)[n..] + Concat(q.payloads[1..]) == Concat(q.payloads[1..]);
    } else {
      ConsumePart(q, n);
    }
  }

  lemma EmptyIff(q: Queue)
    requires Valid(q)
    ensures q.payloads == [] <==> Unsent(q) == []
    ensures q.payloads == [] <==> q.retainedBytes == 0
    ensures 0 <= q.queuedBytes <= q.retainedBytes
  {
    if q.payloads != [] {
      assert |Concat(q.payloads)| == |q.payloads[0]| + |Concat(q.payloads[1..])|;
    }
  }

  /** The queue object; `granted` stands for the shared budget's answer. */
  class SendQueueState {
    var payloads: seq<Bytes>
    var offset: nat
    var queuedBytes: int
    var retainedBytes: int
    const connectionLimit: nat

    constructor (limit: nat)
      ensures View() == EMPTY && connectionLimit == limit
    {
      payloads, offset, queuedBytes, retainedBytes, connectionLimit := [], 0, 0, 0, limit;
    }

    ghost function View(): Queue
      reads this
    {
      Queue(payloads, offset, queuedBytes, retainedBytes)
    }

    method Enqueue(bytes: Bytes, granted: bool) returns (code: ErrorCode)
      requires Valid(View())
      modifies this
      ensures Valid(View())
      ensures code == Ok <==> bytes == [] || (granted && old(retainedBytes) + |bytes| <= connectionLimit)
      ensures code == Ok ==>
        Unsent(View()) == old(Unsent(View())) + bytes && retainedBytes == old(retainedBytes) + |bytes|
      ensures code != Ok ==> code == WouldBlock && View() == old(View())
    {
      if bytes == [] {
        assert Unsent(View()) == old(Unsent(View())) + [];
        return Ok;
      }
      if retainedBytes > connectionLimit || |bytes| > connectionLimit - retainedBytes || !granted { return WouldBlock; }
      AppendExtends(View(), bytes);
      payloads := payloads + [bytes];
      queuedBytes := queuedBytes + |bytes|;
      retainedBytes := retainedBytes + |bytes|;
      return Ok;
    }

    /** Returns the payload bytes whose charge is given back to the shared budget. */
    method Complete(bytes: nat) returns (released: nat)
      requires Valid(View()) && payloads != [] && bytes <= |Front(View())|
      modifies this
      ensures Valid(View()) && View() == Consume(old(View()), bytes) && released == old(retainedBytes) - retainedBytes
      ensures bytes <= |old(Unsent(View()))| && Unsent(View()) == old(Unsent(View()))[bytes..]
    {
      ConsumeAdvances(View(), bytes);
      released := 0;
      offset := offset + bytes;
      queuedBytes := queuedBytes - bytes;
      if offset == |payloads[0]| {
        released := |payloads[0]|;
        payloads := payloads[1..];
        offset := 0;
        retainedBytes := retainedBytes - released;
      }
    }

    method Clear() returns (released: int)
      requires Valid(View())
      modifies this
      ensures View() == EMPTY && Valid(View()) && released == old(retainedBytes)
    {
      released := retainedBytes;
      payloads, offset, queuedBytes, retainedBytes := [], 0, 0, 0;
    }
  }
}
