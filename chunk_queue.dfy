/**
 * The chunk-ownership queue of the data-producer library, on values.
 *
 * The library keeps two vectors of chunk pointers: `free` holds buffers the
 * consumer has lent and that wait to be filled, `full` holds filled buffers
 * that wait for the consumer. Only the pointers (ownership tokens) are
 * modelled; the bytes behind them are opaque.
 */
module ChunkQueue {

  /** A chunk is identified by its address; address 0 is the null pointer. */
  type Pointer = nat

  const Null: Pointer := 0

  /** The two process-wide vectors, front of each sequence = front of the vector. */
  datatype Queues = Queues(free: seq<Pointer>, full: seq<Pointer>)

  /** Both vectors as they are when the library is loaded. */
  const Empty: Queues := Queues([], [])

  /** Every ownership token the library currently holds, with multiplicity. */
  function Tokens(q: Queues): multiset<Pointer> {
    multiset(q.free) + multiset(q.full)
  }

  /** The consumer lends chunk `c`: it goes to the back of `free`. */
  function Push(q: Queues, c: Pointer): Queues {
    Queues(q.free + [c], q.full)
  }

  /**
   * One locked iteration of the producer: with a free chunk available, the
   * LAST one is taken, filled, and appended to `full`; otherwise nothing.
   */
  function Step(q: Queues): Queues {
    if q.free == [] then q
    else Queues(q.free[..|q.free| - 1], q.full + [q.free[|q.free| - 1]])
  }

  /**
   * The consumer takes filled data: the FRONT of `full` is removed and
   * returned, or the null pointer when `full` is empty.
   */
  function Pop(q: Queues): (Queues, Pointer) {
    if q.full == [] then (q, Null) else (Queues(q.free, q.full[1..]), q.full[0])
  }

  /** Lending adds exactly one token, at the back of `free`, and leaves `full` alone. */
  lemma PushAddsOneToken(q: Queues, c: Pointer)
    ensures Push(q, c).full == q.full
    ensures |Push(q, c).free| == |q.free| + 1 && Push(q, c).free[|q.free|] == c
    ensures Push(q, c).free[..|q.free|] == q.free
    ensures Tokens(Push(q, c)) == Tokens(q) + multiset{c}
  {
  }

  /**
   * A producer step on a non-empty `free` moves exactly one token, the last
   * free one, to the back of `full`; on an empty `free` it changes nothing.
   * Either way no token is created or lost.
   */
  lemma StepMovesOneToken(q: Queues)
    ensures q.free == [] ==> Step(q) == q
    ensures q.free != [] ==>
              var r, last := Step(q), q.free[|q.free| - 1];
              && |r.free| == |q.free| - 1 && r.free + [last] == q.free
              && |r.full| == |q.full| + 1 && r.full == q.full + [last]
    ensures Tokens(Step(q)) == Tokens(q)
  {
    if q.free != [] {
      var n := |q.free|;
      assert q.free == q.free[..n - 1] + [q.free[n - 1]];
    }
  }

  /**
   * popChunk on a non-empty `full` hands out its front token and keeps the
   * rest in order; on an empty `full` it returns null and changes nothing.
   */
  lemma PopRemovesFront(q: Queues)
    ensures q.full == [] ==> Pop(q) == (q, Null)
    ensures q.full != [] ==>
              var (r, chunk) := Pop(q);
              && chunk == q.full[0] && [chunk] + r.full == q.full
              && r.free == q.free && |r.full| == |q.full| - 1
    ensures q.full != [] ==> Tokens(Pop(q).0) + multiset{Pop(q).1} == Tokens(q)
  {
    if q.full != [] {
      assert q.full == [q.full[0]] + q.full[1..];
    }
  }

  /** Without null chunks in `full`, a null result means exactly "no data". */
  lemma PopNullMeansEmpty(q: Queues)
    requires Null !in q.full
    ensures Pop(q).1 == Null <==> q.full == []
  {
  }

  /** `n` iterations of the producer loop without interference. */
  function Produce(q: Queues, n: nat): Queues
  {
    if n == 0 then q else Step(Produce(q, n - 1))
  }

  function Min(a: nat, b: nat): nat {
    if a <= b then a else b
  }

  /** The sequence `s` back to front. */
  function Reverse(s: seq<Pointer>): (r: seq<Pointer>)
    ensures |r| == |s|
  {
    if s == [] then [] else [s[|s| - 1]] + Reverse(s[..|s| - 1])
  }

  /** Reverse really reverses: position `i` holds the `i`-th element from the back. */
  lemma {:induction false} ReverseAt(s: seq<Pointer>, i: nat)
    requires i < |s|
    ensures Reverse(s)[i] == s[|s| - 1 - i]
    decreases |s|
  {
    if i > 0 {
      ReverseAt(s[..|s| - 1], i - 1);
    }
  }

  lemma ReverseCons(x: Pointer, s: seq<Pointer>)
    ensures Reverse([x] + s) == Reverse(s) + [x]
  {
    var l, r := Reverse([x] + s), Reverse(s) + [x];
    forall i | 0 <= i < |l| ensures l[i] == r[i] {
      ReverseAt([x] + s, i);
      if i < |s| {
        ReverseAt(s, i);
      }
    }
  }

  /**
   * LIFO out of `free`: `n` producer iterations move the last
   * min(n, |free|) free chunks to the back of `full`, newest first, and
   * leave everything else as it was.
   */
  lemma {:induction false} ProduceMovesNewestFirst(q: Queues, n: nat)
    ensures var k := Min(n, |q.free|);
            Produce(q, n) == Queues(q.free[..|q.free| - k], q.full + Reverse(q.free[|q.free| - k..]))
  {
    var m := |q.free|;
    if n == 0 {
      assert q.free[m..] == [];
      assert q.free[..m] == q.free;
    } else {
      ProduceMovesNewestFirst(q, n - 1);
      var k' := Min(n - 1, m);
      if k' < m {
        StepTakesNext(q, m - k');
      }
    }
  }

  /** One more step after the last `|q.free| - j` free chunks have moved. */
  lemma StepTakesNext(q: Queues, j: nat)
    requires 0 < j <= |q.free|
    ensures Step(Queues(q.free[..j], q.full + Reverse(q.free[j..])))
            == Queues(q.free[..j - 1], q.full + Reverse(q.free[j - 1..]))
  {
    var x, rest, done := q.free[j - 1], q.free[j..], q.full + Reverse(q.free[j..]);
    var p := Queues(q.free[..j], done);
    assert Step(p) == Queues(p.free[..j - 1], done + [p.free[j - 1]]);
    assert p.free[..j - 1] == q.free[..j - 1] && p.free[j - 1] == x;
    assert Reverse(q.free[j - 1..]) == Reverse(rest) + [x] by {
      assert q.free[j - 1..] == [x] + q.free[j - 1..][1..];
      assert q.free[j - 1..][1..] == rest;
      ReverseCons(x, rest);
    }
    assert done + [x] == q.full + (Reverse(rest) + [x]);
  }

  /** Running the producer as often as there are free chunks fills them all. */
  lemma ProduceDrainsFree(q: Queues)
    ensures Produce(q, |q.free|) == Queues([], q.full + Reverse(q.free))
  {
    ProduceMovesNewestFirst(q, |q.free|);
    assert q.free[0..] == q.free;
  }

  /** The producer never creates, loses or duplicates a token. */
  lemma {:induction false} ProduceConservesTokens(q: Queues, n: nat)
    ensures Tokens(Produce(q, n)) == Tokens(q)
  {
    if n > 0 {
      ProduceConservesTokens(q, n - 1);
      StepMovesOneToken(Produce(q, n - 1));
    }
  }
}
