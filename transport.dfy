/** The byte-level SPI transport, seen from the driver. Its primitives
    (`SPI_Write_Byte`, `SPI_Read_Byte`) live in TinySPI, which is not part of
    this model; here a transmit is an append to a trace that may report
    failure, and a receive takes the next entry of a scripted queue. */
module Transport {
  import opened Machine

  /** One scripted outcome of the receive primitive. */
  datatype RxEvent = Byte(value: Int16) | Fault

  /** The next receive yields a byte. */
  predicate Ready(q: seq<RxEvent>)
  {
    q != [] && q[0].Byte?
  }

  /** The queue after one receive, successful or not. */
  function Pop(q: seq<RxEvent>): (r: seq<RxEvent>)
    ensures q == [] ==> r == []
    ensures q != [] ==> [q[0]] + r == q
  {
    if q == [] then [] else q[1..]
  }

  /** Transmit attempt number i (its position in the trace) reports failure
      exactly when i is in `fails`; so every attempt while sending bs after
      trace t succeeds. */
  predicate Delivered(t: seq<int>, fails: set<nat>, bs: seq<int>)
  {
    forall i :: |t| <= i < |t| + |bs| ==> i !in fails
  }

  /** The trace after handing bs to the transmitter one byte at a time,
      starting from trace t and stopping after the first attempt that fails. */
  function Wire(t: seq<int>, fails: set<nat>, bs: seq<int>): seq<int>
    decreases |bs|
  {
    if bs == [] then t
    else if |t| in fails then t + [bs[0]]
    else Wire(t + [bs[0]], fails, bs[1..])
  }

  /** When every attempt succeeds, all of bs goes out, in order. */
  lemma {:induction false} WireDelivered(t: seq<int>, fails: set<nat>, bs: seq<int>)
    requires Delivered(t, fails, bs)
    ensures Wire(t, fails, bs) == t + bs
    decreases |bs|
  {
    if bs != [] {
      assert |t| !in fails;
      assert Delivered(t + [bs[0]], fails, bs[1..]);
      WireDelivered(t + [bs[0]], fails, bs[1..]);
      assert t + [bs[0]] + bs[1..] == t + bs;
    }
  }

  /** When attempt k is the first that fails, bytes 0..k go out and nothing after. */
  lemma {:induction false} WireStopsAtFailure(t: seq<int>, fails: set<nat>, bs: seq<int>, k: nat)
    requires k < |bs|
    requires |t| + k in fails
    requires forall i :: |t| <= i < |t| + k ==> i !in fails
    ensures Wire(t, fails, bs) == t + bs[..k + 1]
    decreases k
  {
    if k == 0 {
      assert bs[..1] == [bs[0]];
    } else {
      assert |t| !in fails;
      WireStopsAtFailure(t + [bs[0]], fails, bs[1..], k - 1);
      assert t + [bs[0]] + bs[1..][..k] == t + bs[..k + 1];
    }
  }

  /** Whatever fails, the trace grows by a prefix of bs: the bytes are never reordered. */
  lemma {:induction false} WireIsPrefix(t: seq<int>, fails: set<nat>, bs: seq<int>)
    ensures |t| <= |Wire(t, fails, bs)| <= |t| + |bs|
    ensures Wire(t, fails, bs) == t + bs[..|Wire(t, fails, bs)| - |t|]
    ensures !Delivered(t, fails, bs) ==> |Wire(t, fails, bs)| > |t|
    decreases |bs|
  {
    if bs != [] {
      if |t| in fails {
        assert bs[..1] == [bs[0]];
      } else {
        WireIsPrefix(t + [bs[0]], fails, bs[1..]);
        var w := Wire(t + [bs[0]], fails, bs[1..]);
        assert t + [bs[0]] + bs[1..][..|w| - |t| - 1] == t + bs[..|w| - |t|];
      }
    }
  }

  /** Sending a and then b (only if a went through) is sending a + b. */
  lemma {:induction false} WireAppend(t: seq<int>, fails: set<nat>, a: seq<int>, b: seq<int>)
    ensures Delivered(t, fails, a + b) <==> Delivered(t, fails, a) && Delivered(t + a, fails, b)
    ensures Wire(t, fails, a + b) == if Delivered(t, fails, a) then Wire(t + a, fails, b) else Wire(t, fails, a)
    decreases |a|
  {
    if a == [] {
      assert a + b == b;
      assert t + a == t;
    } else {
      assert (a + b)[0] == a[0];
      assert (a + b)[1..] == a[1..] + b;
      if |t| !in fails {
        WireAppend(t + [a[0]], fails, a[1..], b);
        assert t + [a[0]] + a[1..] == t + a;
        assert Delivered(t, fails, a) <==> Delivered(t + [a[0]], fails, a[1..]);
      }
    }
  }

  /** The number of successful receives among the next n: the length of the run
      of scripted bytes at the head of q, cut at n. */
  function LeadingBytes(q: seq<RxEvent>, n: nat): (k: nat)
    ensures k <= n && k <= |q|
    ensures forall i :: 0 <= i < k ==> q[i].Byte?
    ensures k < n ==> !Ready(q[k..])
    decreases n
  {
    if n == 0 || !Ready(q) then 0 else 1 + LeadingBytes(q[1..], n - 1)
  }
}
