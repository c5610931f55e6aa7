/** Which streams of chunks the gateway relays, and when their length is the declared size: exact answers, over all
    reachable worlds of the engine. */
module TransferStreams {
  import opened Common
  import opened TransferModel
  import opened TransferLog
  import opened TransferEngine
  import opened TransferTheorems
  import opened TransferScenes
  import opened TransferWitness

  /** The payloads whose sends returned without error. */
  function Delivered(t: Transfer): seq<Bytes> {
    var payloads := Payloads(t.history.log);
    if t.history.delivered <= |payloads| then payloads[..t.history.delivered] else payloads
  }

  /** A transfer of this size has delivered these payloads. */
  ghost predicate Delivers(w: World, id: TransferId, size: nat, payloads: seq<Bytes>) {
    Reached(w) && id in w.objs && w.objs[id].size == size && Delivered(w.objs[id]) == payloads
  }

  /** A completed transfer of this size was handed these payloads, and no others. */
  ghost predicate CompletedWith(w: World, id: TransferId, size: nat, payloads: seq<Bytes>) {
    && Reached(w) && id in w.objs && w.objs[id].state == Completed
    && w.objs[id].size == size && Payloads(w.objs[id].history.log) == payloads
  }

  /** A stream that devices can send and the guard lets through. */
  ghost predicate Passes(size: nat, payloads: seq<Bytes>) {
    size < WORD && Deliverable(payloads) && Admitted(size, payloads).Some?
  }

  lemma DeliveredPasses(w: World, id: TransferId, size: nat, payloads: seq<Bytes>)
    requires Delivers(w, id, size, payloads)
    ensures Passes(size, payloads)
  {
    var run :| IsRun(run) && run[|run| - 1] == w;
    ChunkAccounts(run, |run| - 1, id);
  }

  lemma CompletedPasses(w: World, id: TransferId, size: nat, payloads: seq<Bytes>)
    requires CompletedWith(w, id, size, payloads)
    ensures Passes(size, payloads) && Admitted(size, payloads) == Some(size)
  {
    var run :| IsRun(run) && run[|run| - 1] == w;
    ChunkAccounts(run, |run| - 1, id);
    CompletedMeans(run, |run| - 1, id);
    assert Payloads(w.objs[id].history.log)[..w.objs[id].history.delivered] == payloads;
  }

  lemma DeliveredBySome(c: Cast, size: nat, payloads: seq<Bytes>) returns (w: World)
    requires Distinct(c) && Cold(c) && Passes(size, payloads)
    ensures Delivers(w, c.id, size, payloads)
  {
    var t := Relaying(c, size, payloads);
    w := Scene(c, t, Waiting(c));
    assert payloads[..|payloads|] == payloads;
  }

  lemma CompletedBySome(c: Cast, size: nat, payloads: seq<Bytes>) returns (w: World)
    requires Distinct(c) && Cold(c) && Passes(size, payloads) && Admitted(size, payloads) == Some(size)
    ensures CompletedWith(w, c.id, size, payloads)
  {
    var before: World;
    before, w := CommitMayFollowCompletion(c, size, payloads);
  }

  /** The streams delivered in some run are exactly those the guard lets through. */
  lemma DeliveredStreams(size: nat, payloads: seq<Bytes>)
    ensures (exists w, id :: Delivers(w, id, size, payloads)) <==> Passes(size, payloads)
  {
    if Passes(size, payloads) {
      var c := SomeCast();
      var w := DeliveredBySome(c, size, payloads);
    }
    forall w, id | Delivers(w, id, size, payloads) ensures Passes(size, payloads) {
      DeliveredPasses(w, id, size, payloads);
    }
  }

  /** The streams of completed transfers are exactly those that the guard lets through and that bring Transferred
      to the declared size. */
  lemma CompletedStreams(size: nat, payloads: seq<Bytes>)
    ensures (exists w, id :: CompletedWith(w, id, size, payloads))
            <==> Passes(size, payloads) && Admitted(size, payloads) == Some(size)
  {
    if Passes(size, payloads) && Admitted(size, payloads) == Some(size) {
      var c := SomeCast();
      var w := CompletedBySome(c, size, payloads);
    }
    forall w, id | CompletedWith(w, id, size, payloads)
      ensures Passes(size, payloads) && Admitted(size, payloads) == Some(size)
    {
      CompletedPasses(w, id, size, payloads);
    }
  }

  // ----- Streams that wrap around

  /** `n` chunks of one byte each. */
  function Bytewise(n: nat): seq<Bytes> {
    seq(n, k => [0])
  }

  lemma {:induction false} BytewiseAdmitted(size: nat, n: nat)
    requires n <= size < WORD
    ensures Admitted(size, Bytewise(n)) == Some(n) && Total(Bytewise(n)) == n && Deliverable(Bytewise(n))
  {
    if n > 0 {
      BytewiseAdmitted(size, n - 1);
      assert Bytewise(n)[..n - 1] == Bytewise(n - 1);
    }
  }

  /** A stream that the guard admits although it is longer than the size: the chunk after the declared bytes
      brings the sum back to zero. */
  function Wrapping(size: nat): seq<Bytes>
    requires size < WORD
  {
    Bytewise(size) + [seq(WORD - size, k => 0)]
  }

  lemma WrappingAdmitted(size: nat)
    requires size < WORD && size + MAX_PAYLOAD >= WORD
    ensures Admitted(size, Wrapping(size)) == Some(0) && Total(Wrapping(size)) == WORD && Deliverable(Wrapping(size))
  {
    BytewiseAdmitted(size, size);
    assert Wrapping(size)[..size] == Bytewise(size);
  }

  lemma BytewiseSnoc(first: seq<Bytes>, n: nat)
    requires n > 0
    ensures first + Bytewise(n) == (first + Bytewise(n - 1)) + [[0]]
  {
  }

  lemma OneMoreByte(size: nat, front: seq<Bytes>, all: seq<Bytes>, n: nat)
    requires n < size < WORD && Admitted(size, front) == Some(n) && all == front + [[0]]
    ensures Admitted(size, all) == Some(n + 1) && Total(all) == Total(front) + 1
  {
    assert all[..|all| - 1] == front && all[|all| - 1] == [0];
    assert !Overflows(n, 1, size) && (n + 1) % WORD == n + 1;
  }

  /** Admission starts over when the sum has come back to zero. */
  lemma {:induction false} AdmittedAgain(size: nat, first: seq<Bytes>, n: nat)
    requires n <= size < WORD && Admitted(size, first) == Some(0)
    ensures Admitted(size, first + Bytewise(n)) == Some(n) && Total(first + Bytewise(n)) == Total(first) + n
  {
    if n == 0 {
      assert first + Bytewise(0) == first;
    } else {
      AdmittedAgain(size, first, n - 1);
      BytewiseSnoc(first, n);
      OneMoreByte(size, first + Bytewise(n - 1), first + Bytewise(n), n - 1);
    }
  }

  // ----- When the bytes are as many as declared

  /** No transfer of this size, in any run, delivers more than the declared bytes, exactly when the size plus one
      maximal chunk is a 64-bit word. */
  lemma StreamsStayWithinSize(size: nat)
    requires size < WORD
    ensures (forall w, id, payloads :: Delivers(w, id, size, payloads) ==> Total(payloads) <= size)
            <==> size + MAX_PAYLOAD < WORD
  {
    if size + MAX_PAYLOAD < WORD {
      forall w, id, payloads | Delivers(w, id, size, payloads) ensures Total(payloads) <= size {
        DeliveredPasses(w, id, size, payloads);
        AdmittedIsSum(size, payloads);
      }
    } else {
      WrappingAdmitted(size);
      var c := SomeCast();
      var w := DeliveredBySome(c, size, Wrapping(size));
      assert Delivers(w, c.id, size, Wrapping(size)) && Total(Wrapping(size)) > size;
    }
  }

  /** Every completed transfer of this size, in any run, was handed exactly the declared number of bytes, exactly
      when the size plus one maximal chunk is a 64-bit word. */
  lemma CompletedSizeExact(size: nat)
    requires size < WORD
    ensures (forall w, id, payloads :: CompletedWith(w, id, size, payloads) ==> Total(payloads) == size)
            <==> size + MAX_PAYLOAD < WORD
  {
    if size + MAX_PAYLOAD < WORD {
      forall w, id, payloads | CompletedWith(w, id, size, payloads) ensures Total(payloads) == size {
        CompletedPasses(w, id, size, payloads);
        AdmittedIsSum(size, payloads);
      }
    } else {
      WrappingAdmitted(size);
      AdmittedAgain(size, Wrapping(size), size);
      var stream := Wrapping(size) + Bytewise(size);
      BytewiseAdmitted(size, size);
      var c := SomeCast();
      var w := CompletedBySome(c, size, stream);
      assert CompletedWith(w, c.id, size, stream) && Total(stream) == WORD + size;
    }
  }
}
