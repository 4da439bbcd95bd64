/**
 * Runs of the chunk queue: any interleaving of the three locked blocks
 * (the consumer's pushChunk and popChunk, the producer's iteration), each
 * taken as one atomic event, and what such a run guarantees about the
 * ownership tokens.
 */
module Traces {
  import opened ChunkQueue

  /** One locked block, executed atomically under the library's mutex. */
  datatype Event =
    | Lend(c: Pointer)  // pushChunk(c)
    | Fill              // one locked iteration of the producer
    | Take              // popChunk()

  function Apply(q: Queues, e: Event): Queues {
    match e
    case Lend(c) => Push(q, c)
    case Fill => Step(q)
    case Take => Pop(q).0
  }

  /** The queues after the whole run. */
  function Run(q: Queues, es: seq<Event>): Queues
    decreases |es|
  {
    if es == [] then q else Run(Apply(q, es[0]), es[1..])
  }

  /** The chunks the consumer lent, in order. */
  function Pushed(es: seq<Event>): seq<Pointer>
    decreases |es|
  {
    if es == [] then []
    else PushedBy(es[0]) + Pushed(es[1..])
  }

  /** The chunk the producer appends to `full` in event `e`, if any. */
  function PublishedBy(q: Queues, e: Event): seq<Pointer> {
    if e.Fill? && q.free != [] then [q.free[|q.free| - 1]] else []
  }

  /** The chunk popChunk hands to the consumer in event `e`, if any. */
  function DeliveredBy(q: Queues, e: Event): seq<Pointer> {
    if e.Take? && q.full != [] then [q.full[0]] else []
  }

  /** The chunks the producer appended to `full`, in order. */
  function Published(q: Queues, es: seq<Event>): seq<Pointer>
    decreases |es|
  {
    if es == [] then [] else PublishedBy(q, es[0]) + Published(Apply(q, es[0]), es[1..])
  }

  /** The chunks popChunk handed to the consumer, in order (null results left out). */
  function Delivered(q: Queues, es: seq<Event>): seq<Pointer>
    decreases |es|
  {
    if es == [] then [] else DeliveredBy(q, es[0]) + Delivered(Apply(q, es[0]), es[1..])
  }

  /** What the consumer holds after event `e`, when it held `h` before. */
  function HeldBy(h: multiset<Pointer>, q: Queues, e: Event): multiset<Pointer> {
    h - multiset(PushedBy(e)) + multiset(DeliveredBy(q, e))
  }

  /** The chunks the consumer holds after the run, when it held `h` before. */
  function Held(h: multiset<Pointer>, q: Queues, es: seq<Event>): multiset<Pointer>
    decreases |es|
  {
    if es == [] then h else Held(HeldBy(h, q, es[0]), Apply(q, es[0]), es[1..])
  }

  /** Every chunk the consumer lends is one it holds at that moment. */
  ghost predicate LendsOwnChunks(h: multiset<Pointer>, q: Queues, es: seq<Event>)
    decreases |es|
  {
    es != [] ==>
      && (es[0].Lend? ==> es[0].c in h)
      && LendsOwnChunks(HeldBy(h, q, es[0]), Apply(q, es[0]), es[1..])
  }

  /** Every token the library or the consumer holds, with multiplicity. */
  function AllTokens(q: Queues, h: multiset<Pointer>): multiset<Pointer> {
    Tokens(q) + h
  }

  /**
   * Exclusive ownership: each chunk occurs at most once among free, full
   * and consumer-held together.
   */
  ghost predicate Exclusive(q: Queues, h: multiset<Pointer>) {
    forall x :: AllTokens(q, h)[x] <= 1
  }

  /** One event, seen from `full`: it gains at the back what it loses at the front. */
  lemma EventIsFifo(q: Queues, e: Event)
    ensures q.full + PublishedBy(q, e) == DeliveredBy(q, e) + Apply(q, e).full
  {
  }

  /** The recursive functions over a run, unfolded once. */
  lemma UnfoldRun(q: Queues, es: seq<Event>)
    requires es != []
    ensures Run(q, es) == Run(Apply(q, es[0]), es[1..])
    ensures Published(q, es) == PublishedBy(q, es[0]) + Published(Apply(q, es[0]), es[1..])
    ensures Delivered(q, es) == DeliveredBy(q, es[0]) + Delivered(Apply(q, es[0]), es[1..])
    ensures Pushed(es) == PushedBy(es[0]) + Pushed(es[1..])
  {
  }

  /**
   * FIFO and no loss out of `full`: what was in `full` followed by what the
   * producer published is exactly what the consumer popped followed by what
   * is still in `full`.
   */
  lemma {:induction false} FullIsFifo(q: Queues, es: seq<Event>)
    ensures q.full + Published(q, es) == Delivered(q, es) + Run(q, es).full
    decreases |es|
  {
    if es != [] {
      var e, q1, rest := es[0], Apply(q, es[0]), es[1..];
      FullIsFifo(q1, rest);
      EventIsFifo(q, e);
      UnfoldRun(q, es);
      var pub1, del1 := PublishedBy(q, e), DeliveredBy(q, e);
      var pubRest, delRest, last := Published(q1, rest), Delivered(q1, rest), Run(q1, rest).full;
      // q.full + pub1 == del1 + q1.full and q1.full + pubRest == delRest + last
      Shift(q.full, pub1, del1, q1.full, pubRest, delRest, last);
    }
  }

  /** Sequence bookkeeping behind FullIsFifo's inductive step. */
  lemma Shift<T>(a: seq<T>, b: seq<T>, c: seq<T>, d: seq<T>, e: seq<T>, f: seq<T>, g: seq<T>)
    requires a + b == c + d
    requires d + e == f + g
    ensures a + (b + e) == (c + f) + g
  {
    calc {
      a + (b + e);
      (a + b) + e;
      (c + d) + e;
      c + (d + e);
      c + (f + g);
      (c + f) + g;
    }
  }

  /**
   * FIFO: starting with nothing filled, the chunks popped are a prefix of
   * the chunks published, in the same order, and the published chunks not
   * yet popped are exactly what remains in `full`.
   */
  lemma DeliveredInPublishOrder(q: Queues, es: seq<Event>)
    requires q.full == []
    ensures Delivered(q, es) <= Published(q, es)
    ensures Published(q, es) == Delivered(q, es) + Run(q, es).full
  {
    FullIsFifo(q, es);
    assert [] + Published(q, es) == Published(q, es);
  }

  /** The chunk pushed in event `e`, if any. */
  function PushedBy(e: Event): seq<Pointer> {
    if e.Lend? then [e.c] else []
  }

  /** One event accounts for every token it moves. */
  lemma EventAccounted(q: Queues, e: Event)
    ensures Tokens(q) + multiset(PushedBy(e)) == Tokens(Apply(q, e)) + multiset(DeliveredBy(q, e))
  {
    match e
    case Lend(c) => PushAddsOneToken(q, c);
    case Fill => StepMovesOneToken(q);
    case Take => PopRemovesFront(q);
  }

  /**
   * No chunk appears from nowhere or vanishes: the library's tokens plus
   * what it was lent equal its tokens afterwards plus what it handed out.
   */
  lemma {:induction false} TokensAccounted(q: Queues, es: seq<Event>)
    ensures Tokens(q) + multiset(Pushed(es)) == Tokens(Run(q, es)) + multiset(Delivered(q, es))
    decreases |es|
  {
    if es != [] {
      var e, q1, rest := es[0], Apply(q, es[0]), es[1..];
      TokensAccounted(q1, rest);
      EventAccounted(q, e);
      assert Pushed(es) == PushedBy(e) + Pushed(rest);
      calc {
        Tokens(q) + multiset(Pushed(es));
        Tokens(q) + multiset(PushedBy(e)) + multiset(Pushed(rest));
        Tokens(q1) + multiset(DeliveredBy(q, e)) + multiset(Pushed(rest));
        Tokens(Run(q1, rest)) + multiset(Delivered(q1, rest)) + multiset(DeliveredBy(q, e));
        Tokens(Run(q, es)) + multiset(Delivered(q, es));
      }
    }
  }

  /**
   * If the library holds no null chunk and the consumer never lends one,
   * no null chunk is ever in `full`, so a null popChunk result means "no
   * data" (PopNullMeansEmpty) at every point of the run.
   */
  lemma NullNeverFull(q: Queues, es: seq<Event>)
    requires Null !in Tokens(q) && Null !in Pushed(es)
    ensures Null !in Run(q, es).full
  {
    TokensAccounted(q, es);
    assert Null !in Tokens(q) + multiset(Pushed(es));
    assert multiset(Run(q, es).full) <= Tokens(Run(q, es)) + multiset(Delivered(q, es));
  }

  /**
   * Conservation: as long as the consumer lends only chunks it holds,
   * `free + full + consumer-held` never changes.
   */
  lemma {:induction false} OwnershipConserved(h: multiset<Pointer>, q: Queues, es: seq<Event>)
    requires LendsOwnChunks(h, q, es)
    ensures AllTokens(Run(q, es), Held(h, q, es)) == AllTokens(q, h)
    decreases |es|
  {
    if es != [] {
      var e := es[0];
      OwnershipConserved(HeldBy(h, q, e), Apply(q, e), es[1..]);
      EventConservesOwnership(h, q, e);
    }
  }

  /** One event moves tokens between the library and a consumer that owns what it lends. */
  lemma EventConservesOwnership(h: multiset<Pointer>, q: Queues, e: Event)
    requires e.Lend? ==> e.c in h
    ensures AllTokens(Apply(q, e), HeldBy(h, q, e)) == AllTokens(q, h)
  {
    EventAccounted(q, e);
    var pushed := multiset(PushedBy(e));
    assert pushed <= h by {
      if e.Lend? {
        assert PushedBy(e) == [e.c];
      } else {
        assert PushedBy(e) == [];
      }
    }
    TransferBalances(Tokens(q), Tokens(Apply(q, e)), h, pushed, multiset(DeliveredBy(q, e)));
  }

  /** Multiset bookkeeping: tokens that change sides leave the total unchanged. */
  lemma TransferBalances(before: multiset<Pointer>, after: multiset<Pointer>, h: multiset<Pointer>,
                         lent: multiset<Pointer>, handed: multiset<Pointer>)
    requires before + lent == after + handed
    requires lent <= h
    ensures after + ((h - lent) + handed) == before + h
  {
    forall x
      ensures (after + ((h - lent) + handed))[x] == (before + h)[x]
    {
      assert (before + lent)[x] == (after + handed)[x];
    }
  }

  /**
   * Exclusive ownership is preserved by every run in which the consumer
   * lends only chunks it holds, and every chunk is still somewhere.
   */
  lemma ExclusivePreserved(h: multiset<Pointer>, q: Queues, es: seq<Event>)
    requires Exclusive(q, h)
    requires LendsOwnChunks(h, q, es)
    ensures AllTokens(Run(q, es), Held(h, q, es)) == AllTokens(q, h)
    ensures Exclusive(Run(q, es), Held(h, q, es))
  {
    OwnershipConserved(h, q, es);
  }

  /** Under exclusive ownership no chunk is both free and full, or twice in either. */
  lemma ExclusiveMeansDisjoint(q: Queues, h: multiset<Pointer>)
    requires Exclusive(q, h)
    ensures forall x :: x in q.free ==> x !in q.full && x !in h
    ensures forall i, j :: 0 <= i < j < |q.free| ==> q.free[i] != q.free[j]
    ensures forall i, j :: 0 <= i < j < |q.full| ==> q.full[i] != q.full[j]
  {
    forall x | x in q.free
      ensures x !in q.full && x !in h
    {
      assert AllTokens(q, h)[x] <= 1;
    }
    NoDuplicates(q.free, AllTokens(q, h) - multiset(q.free));
    NoDuplicates(q.full, AllTokens(q, h) - multiset(q.full));
  }

  lemma NoDuplicates(s: seq<Pointer>, rest: multiset<Pointer>)
    requires forall x :: (multiset(s) + rest)[x] <= 1
    ensures forall i, j :: 0 <= i < j < |s| ==> s[i] != s[j]
  {
    forall i, j | 0 <= i < j < |s|
      ensures s[i] != s[j]
    {
      var x, pre, post := s[j], s[..j], s[j + 1..];
      assert s == pre + [x] + post;
      assert pre[i] == s[i];
      assert multiset(s) == multiset(pre) + multiset{x} + multiset(post);
      assert multiset(s)[x] >= multiset(pre)[x] + 1;
      assert pre[i] in multiset(pre);
      assert (multiset(s) + rest)[x] <= 1;
    }
  }

  /** `n` producer iterations in a row. */
  function Fills(n: nat): seq<Event> {
    if n == 0 then [] else Fills(n - 1) + [Fill]
  }

  /** `n` popChunk calls in a row. */
  function Takes(n: nat): seq<Event> {
    if n == 0 then [] else [Take] + Takes(n - 1)
  }

  /** A run split in two is the second part run from where the first ended. */
  lemma {:induction false} RunConcat(q: Queues, a: seq<Event>, b: seq<Event>)
    ensures Run(q, a + b) == Run(Run(q, a), b)
    ensures Delivered(q, a + b) == Delivered(q, a) + Delivered(Run(q, a), b)
    decreases |a|
  {
    if a == [] {
      assert a + b == b;
    } else {
      var q1, ab := Apply(q, a[0]), a + b;
      assert ab[0] == a[0];
      assert ab[1..] == a[1..] + b;
      RunConcat(q1, a[1..], b);
      UnfoldRun(q, ab);
      UnfoldRun(q, a);
      var d0, d1, d2 := DeliveredBy(q, a[0]), Delivered(q1, a[1..]), Delivered(Run(q1, a[1..]), b);
      assert d0 + (d1 + d2) == (d0 + d1) + d2;
    }
  }

  /** The producer loop alone delivers nothing and does what Produce says. */
  lemma {:induction false} RunFills(q: Queues, n: nat)
    ensures Run(q, Fills(n)) == Produce(q, n)
    ensures Delivered(q, Fills(n)) == []
  {
    if n > 0 {
      RunFills(q, n - 1);
      RunConcat(q, Fills(n - 1), [Fill]);
      var p := Run(q, Fills(n - 1));
      UnfoldRun(p, [Fill]);
      assert [Fill][1..] == [];
    }
  }

  /** `|full|` popChunk calls in a row hand out all of `full`, front first. */
  lemma {:induction false} RunTakes(q: Queues)
    ensures Run(q, Takes(|q.full|)) == Queues(q.free, [])
    ensures Delivered(q, Takes(|q.full|)) == q.full
    decreases |q.full|
  {
    var n := |q.full|;
    if n > 0 {
      var q1 := Apply(q, Take);
      assert Takes(n)[0] == Take && Takes(n)[1..] == Takes(n - 1);
      UnfoldRun(q, Takes(n));
      RunTakes(q1);
      assert q.full == [q.full[0]] + q1.full;
    }
  }

  /** One producer iteration per free chunk, then one pop per chunk held. */
  function Drain(q: Queues): seq<Event> {
    Fills(|q.free|) + Takes(|q.full| + |q.free|)
  }

  /** A drain is the producer loop followed by the pops. */
  lemma DrainSplits(q: Queues)
    ensures Run(q, Drain(q)) == Run(Produce(q, |q.free|), Takes(|q.full| + |q.free|))
    ensures Delivered(q, Drain(q)) == Delivered(Produce(q, |q.free|), Takes(|q.full| + |q.free|))
  {
    var fills, takes := Fills(|q.free|), Takes(|q.full| + |q.free|);
    assert Drain(q) == fills + takes;
    assert Run(q, fills) == Produce(q, |q.free|) && Delivered(q, fills) == [] by {
      RunFills(q, |q.free|);
    }
    assert Run(q, fills + takes) == Run(Run(q, fills), takes)
        && Delivered(q, fills + takes) == Delivered(q, fills) + Delivered(Run(q, fills), takes) by {
      RunConcat(q, fills, takes);
    }
    assert [] + Delivered(Run(q, fills), takes) == Delivered(Run(q, fills), takes);
  }

  /** Draining `full` after the producer loop hands out the free chunks newest first. */
  lemma TakesAfterProduce(q: Queues)
    ensures Run(Produce(q, |q.free|), Takes(|q.full| + |q.free|)) == Empty
    ensures Delivered(Produce(q, |q.free|), Takes(|q.full| + |q.free|)) == q.full + Reverse(q.free)
  {
    var p := Produce(q, |q.free|);
    ProduceDrainsFree(q);
    assert |p.full| == |q.full| + |q.free|;
    RunTakes(p);
  }

  /** What a drain hands out is exactly the library's tokens. */
  lemma DrainedTokens(q: Queues)
    ensures multiset(q.full + Reverse(q.free)) == Tokens(q)
  {
    var p := Produce(q, |q.free|);
    ProduceDrainsFree(q);
    ProduceConservesTokens(q, |q.free|);
    assert Tokens(p) == multiset(p.full);
  }

  /**
   * No loss: if the producer runs once per free chunk and the consumer then
   * pops until `full` is empty, every chunk the library held is handed out
   * exactly once, the filled ones first, and the library holds nothing.
   */
  lemma EveryChunkDelivered(q: Queues)
    ensures Run(q, Drain(q)) == Empty
    ensures Delivered(q, Drain(q)) == q.full + Reverse(q.free)
    ensures multiset(Delivered(q, Drain(q))) == Tokens(q)
  {
    DrainSplits(q);
    TakesAfterProduce(q);
    DrainedTokens(q);
  }
}
