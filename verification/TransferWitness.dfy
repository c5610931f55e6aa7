/** Particular runs of the engine, built from the scenes: every stream the guard admits is relayed and completed by
    some run, and two things that the code does not rule out do happen. */
module TransferWitness {
  import opened Common
  import opened TransferModel
  import opened TransferLog
  import opened TransferEngine
  import opened TransferScenes

  // ----- A start message after a cancellation

  function Gone(c: Cast): Transfer {
    Finish(Fresh(c).(relay := Some(1)), Cancelled, c.now)
  }

  function Told(c: Cast): Transfer {
    Logged(Logged(Gone(c), c.src, Cancel), c.tgt, Cancel)
  }

  /** CancelTransfer takes relayMu before the StartTransfer that published the transfer does. */
  lemma CancelFirst(c: Cast)
    requires Distinct(c) && Cold(c)
    ensures Reached(Scene(c, Gone(c), StarterWaits(c)[1 := Newcomer(TellCancel(c.id, [c.src, c.tgt]))]))
  {
    Publishing(c);
    Begins(c, Fresh(c), StarterWaits(c), 1, CancelOp);
    var t0 := Fresh(c).(relay := Some(1));
    assert Peers(t0) == [c.src, c.tgt];
    Acts(c, t0, StarterWaits(c), 1, Newcomer(Region(c.id, CancelOp)), Gone(c), TellCancel(c.id, [c.src, c.tgt]));
  }

  /** The canceller tells one peer. */
  lemma Telling(c: Cast, t: Transfer, first: SessionId, rest: seq<SessionId>)
    requires Reached(Scene(c, t, StarterWaits(c)[1 := Newcomer(TellCancel(c.id, [first] + rest))]))
    requires t.sourceDevice == A && t.targetDevice == B
    ensures Reached(Scene(c, Logged(t, first, Cancel), StarterWaits(c)[1 := Newcomer(TellCancel(c.id, rest))]))
  {
    var t1 := Logged(t, first, Cancel);
    assert ([first] + rest)[1..] == rest;
    Acts(c, t, StarterWaits(c), 1, Newcomer(TellCancel(c.id, [first] + rest)), t1, CancelInTransport(c.id, rest));
    Acts(c, t1, StarterWaits(c), 1, Newcomer(CancelInTransport(c.id, rest)), t1, TellCancel(c.id, rest));
  }

  lemma CancelDone(c: Cast)
    requires Distinct(c) && Cold(c)
    ensures Reached(Scene(c, Told(c).(relay := None), StarterWaits(c)))
  {
    CancelFirst(c);
    assert [c.src] + [c.tgt] == [c.src, c.tgt] && [c.tgt] + [] == [c.tgt];
    Telling(c, Gone(c), c.src, [c.tgt]);
    Telling(c, Logged(Gone(c), c.src, Cancel), c.tgt, []);
    Acts(c, Told(c), StarterWaits(c), 1, Newcomer(TellCancel(c.id, [])), Told(c), Unlock(c.id));
    Leaves(c, Told(c), StarterWaits(c), 1);
  }

  /** The starter takes relayMu and asks the target to prepare, whatever the state. */
  lemma AskingTarget(c: Cast, t: Transfer)
    requires Reached(Scene(c, t, StarterWaits(c))) && t.relay == None && t.history.tgt == c.tgt
    requires t.sourceDevice == A && t.targetDevice == B
    ensures Reached(Scene(c, Logged(t.(relay := Some(0)), c.tgt, TargetStart),
            map[0 := Starter(InTransport(c.id, c.tgt, TargetStart))]))
  {
    assert forall th: Thread :: map[][0 := th] == map[0 := th];
    Takes(c, t, map[], 0, StartOp, Starter(WantRelay(c.id, StartOp)));
    var t0 := t.(relay := Some(0));
    Acts(c, t0, map[], 0, Starter(Region(c.id, StartOp)), t0, Hand(c.id, c.tgt, TargetStart));
    Acts(c, t0, map[], 0, Starter(Hand(c.id, c.tgt, TargetStart)), Logged(t0, c.tgt, TargetStart),
        InTransport(c.id, c.tgt, TargetStart));
  }

  /** Both peers are told of the cancellation first, and the target is asked to prepare afterwards. */
  lemma StartMayFollowCancel(c: Cast)
    requires Distinct(c) && Cold(c)
    ensures exists w :: Reached(w) && c.id in w.objs
              && w.objs[c.id].history.log == [Event(c.src, Cancel), Event(c.tgt, Cancel), Event(c.tgt, TargetStart)]
  {
    CancelDone(c);
    AskingTarget(c, Told(c).(relay := None));
    var w := Scene(c, Logged(Told(c).(relay := Some(0)), c.tgt, TargetStart),
        map[0 := Starter(InTransport(c.id, c.tgt, TargetStart))]);
    assert Told(c).(relay := None).(relay := Some(0)) == Told(c).(relay := Some(0));
    assert w.objs[c.id].history.log == [Event(c.src, Cancel), Event(c.tgt, Cancel), Event(c.tgt, TargetStart)];
  }

  // ----- Every admitted stream

  function Asked(c: Cast): Transfer {
    Logged(Logged(Fresh(c), c.tgt, TargetStart), c.src, SourceStart)
  }

  function Waiting(c: Cast): map<ThreadId, Thread> {
    map[0 := Starter(AwaitReady(c.id))]
  }

  lemma Asking(c: Cast)
    requires Distinct(c) && Cold(c)
    ensures Reached(Scene(c, Asked(c), Waiting(c)))
  {
    Publishing(c);
    AskingTarget(c, Fresh(c));
    assert forall th: Thread :: map[][0 := th] == map[0 := th];
    var t1 := Logged(Fresh(c).(relay := Some(0)), c.tgt, TargetStart);
    var t2 := Logged(t1, c.src, SourceStart);
    Acts(c, t1, map[], 0, Starter(InTransport(c.id, c.tgt, TargetStart)), t1, Hand(c.id, c.src, SourceStart));
    Acts(c, t1, map[], 0, Starter(Hand(c.id, c.src, SourceStart)), t2, InTransport(c.id, c.src, SourceStart));
    Acts(c, t2, map[], 0, Starter(InTransport(c.id, c.src, SourceStart)), t2, Unlock(c.id));
    StarterLeaves(c, t2, map[]);
    assert t2.(relay := None) == Asked(c);
  }

  function SourceIsReady(c: Cast, size: nat): Transfer {
    Asked(c).(sourceReady := true, size := size)
  }

  function Started(c: Cast, size: nat): Transfer {
    Logged(SourceIsReady(c, size).(targetReady := true, state := Running, readyClosed := true), c.src, SendGo)
  }

  lemma Readying(c: Cast, size: nat)
    requires Distinct(c) && Cold(c) && size < WORD
    ensures Reached(Scene(c, SourceIsReady(c, size), Waiting(c)))
  {
    Asking(c);
    var op := SourceReadyOp(c.src, size);
    Begins(c, Asked(c), Waiting(c), 1, op);
    Acts(c, Asked(c).(relay := Some(1)), Waiting(c), 1, Newcomer(Region(c.id, op)),
         SourceIsReady(c, size).(relay := Some(1)), Unlock(c.id));
    Leaves(c, SourceIsReady(c, size).(relay := Some(1)), Waiting(c), 1);
    assert SourceIsReady(c, size).(relay := Some(1)).(relay := None) == SourceIsReady(c, size);
  }

  /** The target's ready message finds the source ready. */
  function BothReady(c: Cast, size: nat): Transfer {
    SourceIsReady(c, size).(relay := Some(1), targetReady := true, state := Running, readyClosed := true)
  }

  lemma Matching(c: Cast, size: nat)
    requires Distinct(c) && Cold(c) && size < WORD
    ensures Reached(Scene(c, BothReady(c, size), Waiting(c)[1 := Newcomer(Hand(c.id, c.src, SendGo))]))
  {
    Readying(c, size);
    var op := TargetReadyOp(c.tgt);
    var t := SourceIsReady(c, size);
    Begins(c, t, Waiting(c), 1, op);
    Acts(c, t.(relay := Some(1)), Waiting(c), 1, Newcomer(Region(c.id, op)), BothReady(c, size),
        Hand(c.id, c.src, SendGo));
  }

  lemma Starting(c: Cast, size: nat)
    requires Distinct(c) && Cold(c) && size < WORD
    ensures Reached(Scene(c, Started(c, size), Waiting(c)))
  {
    Matching(c, size);
    var t1 := BothReady(c, size);
    var t2 := Logged(t1, c.src, SendGo);
    Acts(c, t1, Waiting(c), 1, Newcomer(Hand(c.id, c.src, SendGo)), t2, InTransport(c.id, c.src, SendGo));
    Acts(c, t2, Waiting(c), 1, Newcomer(InTransport(c.id, c.src, SendGo)), t2, Unlock(c.id));
    Leaves(c, t2, Waiting(c), 1);
    assert t2.(relay := None) == Started(c, size);
  }

  /** `t` is running at rest and has relayed `payloads`. */
  ghost predicate Relayed(c: Cast, t: Transfer, size: nat, payloads: seq<Bytes>) {
    && t.state == Running && t.relay == None && t.size == size
    && t.sourceDevice == A && t.targetDevice == B && t.source == Some(c.src) && t.target == Some(c.tgt)
    && Admitted(size, payloads) == Some(t.transferred)
    && t.history.src == c.src && t.history.tgt == c.tgt
    && t.history.delivered == |payloads| && t.nextSeq < WORD
    && t.updatedAt == Wall(c.now) && t.history.progressAt == c.now.mono
    && Payloads(t.history.log) == payloads
  }

  /** The transfer after one more chunk. */
  function WithChunk(c: Cast, t: Transfer, payload: Bytes): Transfer {
    ChunkSentRegion(true, Logged(t, c.tgt, Chunk(t.nextSeq, payload)), t.nextSeq, payload, c.now)
  }

  lemma ChunkRelayed(c: Cast, t: Transfer, size: nat, payloads: seq<Bytes>, payload: Bytes)
    requires Relayed(c, t, size, payloads) && !Overflows(t.transferred, |payload|, size)
    ensures Relayed(c, WithChunk(c, t, payload), size, payloads + [payload])
  {
    PayloadsSnoc(t.history.log, Event(c.tgt, Chunk(t.nextSeq, payload)));
    assert (payloads + [payload])[..|payloads|] == payloads;
  }

  lemma Offering(c: Cast, t: Transfer, size: nat, payloads: seq<Bytes>, payload: Bytes)
    requires Reached(Scene(c, t, Waiting(c))) && Relayed(c, t, size, payloads) && |payload| <= MAX_PAYLOAD
    requires !Overflows(t.transferred, |payload|, size)
    ensures var m := Chunk(t.nextSeq, payload);
            Reached(Scene(c, Logged(t.(relay := Some(1)), c.tgt, m),
                Waiting(c)[1 := Newcomer(InTransport(c.id, c.tgt, m))]))
  {
    var m := Chunk(t.nextSeq, payload);
    var op := ChunkOp(c.src, t.nextSeq, payload);
    Begins(c, t, Waiting(c), 1, op);
    var t0 := t.(relay := Some(1));
    Acts(c, t0, Waiting(c), 1, Newcomer(Region(c.id, op)), t0, Hand(c.id, c.tgt, m));
    Acts(c, t0, Waiting(c), 1, Newcomer(Hand(c.id, c.tgt, m)), Logged(t0, c.tgt, m), InTransport(c.id, c.tgt, m));
  }

  /** The chunk's send returns and the chunk is recorded. */
  lemma Delivering(c: Cast, t: Transfer, sequence: nat, payload: Bytes)
    requires Reached(Scene(c, t, Waiting(c)[1 := Newcomer(InTransport(c.id, c.tgt, Chunk(sequence, payload)))]))
    requires t.sourceDevice == A && t.targetDevice == B
    ensures Reached(Scene(c, ChunkSentRegion(true, t, sequence, payload, c.now).(relay := None), Waiting(c)))
  {
    var t1 := ChunkSentRegion(true, t, sequence, payload, c.now);
    Acts(c, t, Waiting(c), 1, Newcomer(InTransport(c.id, c.tgt, Chunk(sequence, payload))), t,
        ChunkSent(c.id, sequence, payload));
    Acts(c, t, Waiting(c), 1, Newcomer(ChunkSent(c.id, sequence, payload)), t1, Unlock(c.id));
    Leaves(c, t1, Waiting(c), 1);
  }

  /** One more chunk. */
  lemma RelayingOne(c: Cast, t: Transfer, size: nat, payloads: seq<Bytes>, payload: Bytes)
    requires Reached(Scene(c, t, Waiting(c))) && Relayed(c, t, size, payloads) && |payload| <= MAX_PAYLOAD
    requires !Overflows(t.transferred, |payload|, size)
    ensures Reached(Scene(c, WithChunk(c, t, payload), Waiting(c)))
  {
    Offering(c, t, size, payloads, payload);
    var t1 := Logged(t.(relay := Some(1)), c.tgt, Chunk(t.nextSeq, payload));
    Delivering(c, t1, t.nextSeq, payload);
    assert ChunkSentRegion(true, t1, t.nextSeq, payload, c.now).(relay := None) == WithChunk(c, t, payload);
  }

  lemma NothingRelayed(c: Cast, size: nat)
    ensures Relayed(c, Started(c, size), size, [])
  {
    PayloadsSnoc([], Event(c.tgt, TargetStart));
    PayloadsSnoc([Event(c.tgt, TargetStart)], Event(c.src, SourceStart));
    PayloadsSnoc([Event(c.tgt, TargetStart), Event(c.src, SourceStart)], Event(c.src, SendGo));
    assert [Event(c.tgt, TargetStart)] == [] + [Event(c.tgt, TargetStart)];
    assert [Event(c.tgt, TargetStart), Event(c.src, SourceStart)]
        == [Event(c.tgt, TargetStart)] + [Event(c.src, SourceStart)];
  }

  lemma {:induction false} Relaying(c: Cast, size: nat, payloads: seq<Bytes>) returns (t: Transfer)
    requires Distinct(c) && Cold(c) && size < WORD && Deliverable(payloads) && Admitted(size, payloads).Some?
    ensures Reached(Scene(c, t, Waiting(c))) && Relayed(c, t, size, payloads)
  {
    if payloads == [] {
      Starting(c, size);
      NothingRelayed(c, size);
      t := Started(c, size);
    } else {
      var front, last := payloads[..|payloads| - 1], payloads[|payloads| - 1];
      var before := Relaying(c, size, front);
      RelayingOne(c, before, size, front, last);
      ChunkRelayed(c, before, size, front, last);
      t := WithChunk(c, before, last);
      assert payloads == front + [last];
    }
  }

  // ----- A commit after completion

  /** The digest both peers report in these runs. */
  function Digest(): string {
    seq(64, k => '0')
  }

  lemma DigestIsNormal()
    ensures Normalise(Digest()) == Digest() && ValidDigest(Digest())
  {
    assert TrimLeft(Digest()) == Digest() && TrimRight(Digest()) == Digest();
  }

  /** The transfer after the source's finish. */
  function Verified(t: Transfer): Transfer {
    t.(relay := Some(1), state := Verifying, digest := Digest(),
       history := t.history.(sourceFinish := Some(Report(t.size, Digest()))))
  }

  function CommitWaits(c: Cast, size: nat): map<ThreadId, Thread> {
    Waiting(c)[1 := Newcomer(Hand(c.id, c.tgt, Commit(size, Digest())))]
  }

  /** Once the stream makes up the size, the source's finish leads to Verifying. */
  lemma SourceFinishes(c: Cast, t: Transfer, size: nat, payloads: seq<Bytes>)
    requires Reached(Scene(c, t, Waiting(c))) && Relayed(c, t, size, payloads) && t.transferred == size
    ensures Reached(Scene(c, Verified(t), CommitWaits(c, size)))
  {
    DigestIsNormal();
    Checks(c, t, Waiting(c), 1, c.src, size, Digest());
    Acts(c, t.(relay := Some(1)), Waiting(c), 1, Newcomer(Region(c.id, SourceFinishOp(c.src, size, Digest()))),
         Verified(t), Hand(c.id, c.tgt, Commit(size, Digest())));
  }

  /** While the commit is still to be handed over, the target's finish completes the transfer. */
  lemma Overtaking(c: Cast, t: Transfer, size: nat, payloads: seq<Bytes>)
    requires Reached(Scene(c, t, Waiting(c))) && Relayed(c, t, size, payloads) && t.transferred == size
    ensures Reached(Scene(c, Complete(Verified(t), size, Digest(), c.now), CommitWaits(c, size)))
  {
    SourceFinishes(c, t, size, payloads);
    DigestIsNormal();
    TargetFinishes(c, Verified(t), CommitWaits(c, size), 2, Digest());
  }

  /** The commit is handed over after all, to the target of a completed transfer. */
  lemma Committing(c: Cast, t: Transfer, size: nat, payloads: seq<Bytes>)
    requires Reached(Scene(c, t, Waiting(c))) && Relayed(c, t, size, payloads) && t.transferred == size
    ensures var commit := Commit(size, Digest());
            var t2 := Logged(Complete(Verified(t), size, Digest(), c.now), c.tgt, commit);
            && Reached(Scene(c, t2, Waiting(c)[1 := Newcomer(InTransport(c.id, c.tgt, commit))]))
            && Payloads(t2.history.log) == payloads
  {
    var commit := Commit(size, Digest());
    Overtaking(c, t, size, payloads);
    var t1 := Complete(Verified(t), size, Digest(), c.now);
    Acts(c, t1, Waiting(c), 1, Newcomer(Hand(c.id, c.tgt, commit)), Logged(t1, c.tgt, commit),
        InTransport(c.id, c.tgt, commit));
    PayloadsSnoc(t.history.log, Event(c.tgt, commit));
  }

  /** There is a run, for any stream, in which a completed transfer is followed by its commit. */
  lemma CommitMayFollowCompletion(c: Cast, size: nat, payloads: seq<Bytes>) returns (before: World, after: World)
    requires Distinct(c) && Cold(c) && size < WORD && Deliverable(payloads) && Admitted(size, payloads) == Some(size)
    ensures Reached(before) && Reached(after) && Next(before, after, Act(1)) && c.id in before.objs
            && c.id in after.objs
    ensures before.objs[c.id].state == after.objs[c.id].state == Completed
    ensures before.objs[c.id].size == after.objs[c.id].size == size
            && Payloads(after.objs[c.id].history.log) == payloads
    ensures after.objs[c.id].history.log == before.objs[c.id].history.log + [Event(c.tgt, Commit(size, Digest()))]
  {
    var t := Relaying(c, size, payloads);
    Overtaking(c, t, size, payloads);
    Committing(c, t, size, payloads);
    var commit := Commit(size, Digest());
    var t1 := Complete(Verified(t), size, Digest(), c.now);
    before := Scene(c, t1, CommitWaits(c, size));
    after := Scene(c, Logged(t1, c.tgt, commit), Waiting(c)[1 := Newcomer(InTransport(c.id, c.tgt, commit))]);
    OwnerChanges(c, t1, Waiting(c), 1, Newcomer(Hand(c.id, c.tgt, commit)), Logged(t1, c.tgt, commit),
        InTransport(c.id, c.tgt, commit));
    OwnerRuns(before, after, 1, c.id);
  }
}
