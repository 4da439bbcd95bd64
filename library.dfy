/**
 * The library's process-wide state and its entry points: the two chunk
 * vectors, the generator thread, and the locked blocks that act on them.
 * Each method is one block run under the library's mutex, so it is atomic
 * with respect to the others.
 */
module Lib {
  import opened ChunkQueue

  class Library {
    /** Buffers lent by the consumer, waiting to be filled. */
    var freeChunks: seq<Pointer>
    /** Filled buffers, waiting for the consumer. */
    var fullChunks: seq<Pointer>
    /** Whether a generator thread exists that can still be joined. */
    var generatorRunning: bool

    /** The two vectors as one value, for the specification functions. */
    function State(): Queues
      reads this
    {
      Queues(freeChunks, fullChunks)
    }

    /** Static initialisation: both vectors empty, no thread. */
    constructor ()
      ensures State() == Empty && !generatorRunning
    {
      freeChunks, fullChunks := [], [];
      generatorRunning := false;
    }

    /**
     * Launch the generator thread. Assigning a new thread first stops and
     * joins one that is still running, so exactly one generator runs
     * afterwards; the vectors are untouched.
     */
    method Start()
      modifies this
      ensures generatorRunning
      ensures State() == old(State())
    {
      generatorRunning := true;
    }

    /**
     * Ask the generator to stop and wait for it, if there is one; with no
     * joinable thread this does nothing at all, so stopping twice is the
     * same as stopping once.
     */
    method Stop()
      modifies this
      ensures !generatorRunning
      ensures State() == old(State())
      ensures !old(generatorRunning) ==> unchanged(this)
    {
      if generatorRunning {
        generatorRunning := false;
      }
    }

    /** The consumer lends `chunk`: it is appended to the free vector. */
    method PushChunk(chunk: Pointer)
      modifies this
      ensures freeChunks == old(freeChunks) + [chunk]
      ensures fullChunks == old(fullChunks)
      ensures State() == Push(old(State()), chunk)
      ensures generatorRunning == old(generatorRunning)
    {
      freeChunks := freeChunks + [chunk];
    }

    /**
     * The consumer takes filled data: the oldest full chunk is removed and
     * returned, or the null pointer when there is none (and then nothing
     * changes).
     */
    method PopChunk() returns (chunk: Pointer)
      modifies this
      ensures old(fullChunks) == [] ==> chunk == Null && unchanged(this)
      ensures old(fullChunks) != [] ==>
                chunk == old(fullChunks)[0] && fullChunks == old(fullChunks)[1..]
      ensures freeChunks == old(freeChunks)
      ensures (State(), chunk) == Pop(old(State()))
      ensures generatorRunning == old(generatorRunning)
    {
      if |fullChunks| > 0 {
        chunk := fullChunks[0];
        fullChunks := fullChunks[1..];
        return;
      }
      chunk := Null;
    }

    /**
     * The locked body of one generator iteration: move the last free chunk
     * (after filling it, which does not touch the vectors) to the back of
     * the full vector. Only the generator thread runs it.
     */
    method GeneratorStep()
      requires generatorRunning
      modifies this
      ensures old(freeChunks) == [] ==> unchanged(this)
      ensures old(freeChunks) != [] ==>
                && freeChunks == old(freeChunks)[..|old(freeChunks)| - 1]
                && fullChunks == old(fullChunks) + [old(freeChunks)[|old(freeChunks)| - 1]]
      ensures State() == Step(old(State()))
      ensures generatorRunning
    {
      if |freeChunks| > 0 {
        var currentChunk := freeChunks[|freeChunks| - 1];
        freeChunks := freeChunks[..|freeChunks| - 1];
        FillData(currentChunk);
        fullChunks := fullChunks + [currentChunk];
      }
    }

    /**
     * The generator loop, run for `iterations` rounds before it observes
     * its stop request, with no consumer call in between.
     */
    method DataGenerator(iterations: nat)
      requires generatorRunning
      modifies this
      ensures State() == Produce(old(State()), iterations)
      ensures generatorRunning
    {
      var i := 0;
      while i < iterations
        invariant 0 <= i <= iterations
        invariant generatorRunning
        invariant State() == Produce(old(State()), i)
      {
        GeneratorStep();
        i := i + 1;
      }
    }
  }

  /** Filling a chunk writes its bytes only, which are not modelled. */
  method FillData(chunk: Pointer)
  {
  }
}
