/** What the transfer engine guarantees in every reachable world, and over whole runs. */
module TransferTheorems {
  import opened Common
  import opened TransferModel
  import opened TransferDigest
  import opened TransferLog
  import opened TransferEngine
  import opened TransferLocal
  import opened TransferInvariant
  import opened TransferRun

  // ----- Messages

  lemma {:induction false} PhasePayloads(log: seq<Event>, src: SessionId, tgt: SessionId)
    requires Replay(log, src, tgt).Some?
    ensures Replay(log, src, tgt).value.payloads == Payloads(log)
  {
    if log != [] { PhasePayloads(log[..|log| - 1], src, tgt); }
  }

  /** In every interleaving: messages reach the right peer; data moves in the order SendGo, chunks numbered
      from 0, commit; and nothing moves once a peer has been told of the cancellation. */
  lemma MessagesInOrder(run: seq<World>, i: nat, id: TransferId)
    requires IsRun(run) && i < |run| && id in run[i].objs
    ensures var h := run[i].objs[id].history; WellOrdered(h.log, h.src, h.tgt)
  {
    Reachable(run, i);
    assert Sound(run[i].objs[id], run[i].now);
    AcceptedLog(run[i].objs[id].history.log, run[i].objs[id].history.src, run[i].objs[id].history.tgt);
  }

  /** What the owner of a relayMu knows in any run. */
  lemma HolderKnows(run: seq<World>, i: nat, u: ThreadId, id: TransferId)
    requires IsRun(run) && i < |run| && u in run[i].threads && Holding(run[i].threads[u].pc) == Some(id)
    ensures id in run[i].objs
    ensures Sound(run[i].objs[id], run[i].now) && HolderOk(run[i].objs[id], run[i].threads[u].pc, u, run[i].now)
    ensures run[i].objs[id].history.unreachable <= Closed(run[i])
  {
    Reachable(run, i);
    assert ThreadOk(run[i], u) && Sound(run[i].objs[id], run[i].now);
  }

  /** While a data message is inside a transport, or about to be handed over, no peer has been told to cancel. */
  lemma NoCancelBesideData(run: seq<World>, i: nat, u: ThreadId)
    requires IsRun(run) && i < |run| && u in run[i].threads
    requires var pc := run[i].threads[u].pc; (pc.Hand? || pc.InTransport?) && MovesData(pc.message)
    ensures var id := run[i].threads[u].pc.id;
            id in run[i].objs && forall e :: e in run[i].objs[id].history.log ==> e.message != Cancel
  {
    var w := run[i];
    var pc := w.threads[u].pc;
    HolderKnows(run, i, u, pc.id);
    var t := w.objs[pc.id];
    assert PhaseOf(t).value.told == {};
    AcceptedLog(t.history.log, t.history.src, t.history.tgt);
    ToldNobody(t.history.log, PhaseOf(t).value);
  }

  /** A start message about to be handed over comes before any cancellation unless the transfer had already failed
      or been cancelled when StartTransfer took relayMu; then it comes after all cancellations. */
  lemma StartOrder(run: seq<World>, i: nat, u: ThreadId)
    requires IsRun(run) && i < |run| && u in run[i].threads
    requires var pc := run[i].threads[u].pc; pc.Hand? && (pc.message.TargetStart? || pc.message.SourceStart?)
    ensures run[i].threads[u].pc.id in run[i].objs
    ensures var t := run[i].objs[run[i].threads[u].pc.id];
            if t.state == Failed || t.state == Cancelled then
              && (Event(t.history.src, Cancel) in t.history.log || t.history.src in Closed(run[i]))
              && (Event(t.history.tgt, Cancel) in t.history.log || t.history.tgt in Closed(run[i]))
            else forall e :: e in t.history.log ==> e.message != Cancel
  {
    var w := run[i];
    var pc := w.threads[u].pc;
    HolderKnows(run, i, u, pc.id);
    var t := w.objs[pc.id];
    AcceptedLog(t.history.log, t.history.src, t.history.tgt);
    LogHolds(t, PhaseOf(t).value);
    if t.state != Failed && t.state != Cancelled { ToldNobody(t.history.log, PhaseOf(t).value); }
  }

  /** For a start message about to go to a session that is still open, that is exactly when. */
  lemma StartFollowsCancelWhen(run: seq<World>, i: nat, u: ThreadId)
    requires IsRun(run) && i < |run| && u in run[i].threads
    requires var pc := run[i].threads[u].pc; pc.Hand? && (pc.message.TargetStart? || pc.message.SourceStart?)
    requires run[i].threads[u].pc.to !in Closed(run[i])
    ensures run[i].threads[u].pc.id in run[i].objs
    ensures var t := run[i].objs[run[i].threads[u].pc.id];
            (exists e :: e in t.history.log && e.message == Cancel) <==> t.state == Failed || t.state == Cancelled
  {
    StartOrder(run, i, u);
    HolderKnows(run, i, u, run[i].threads[u].pc.id);
  }

  lemma ToldNobody(log: seq<Event>, p: Phase)
    requires PhaseReads(log, p) && p.told == {}
    ensures forall e :: e in log ==> e.message != Cancel
  {
  }

  /** Chunk accounting: of the payloads handed over, all but at most the last are delivered. The delivered ones
      passed the size guard one by one, which left Transferred as it is and never above Size; NextSeq counts them
      and Transferred sums them, as 64-bit words. At rest every payload of a live transfer is delivered. */
  lemma ChunkAccounts(run: seq<World>, i: nat, id: TransferId)
    requires IsRun(run) && i < |run| && id in run[i].objs
    ensures var t := run[i].objs[id];
            var payloads, n := Payloads(t.history.log), t.history.delivered;
            && t.size < WORD && n <= |payloads| <= n + 1 && Deliverable(payloads)
            && Admitted(t.size, payloads[..n]) == Some(t.transferred) && t.transferred <= t.size
            && t.nextSeq == n % WORD && t.transferred == Total(payloads[..n]) % WORD
            && (!Final(t.state) && t.relay == None ==> |payloads| == n)
  {
    var t := run[i].objs[id];
    assert Sound(t, run[i].now) && (t.relay == None ==> Quiet(t)) by {
      Reachable(run, i);
      assert Sound(t, run[i].now) && RelayOk(t, id, run[i].threads);
    }
    PhasePayloads(t.history.log, t.history.src, t.history.tgt);
    AdmittedIsSum(t.size, Payloads(t.history.log)[..t.history.delivered]);
  }

  /** What the peers have been sent whenever relayMu is free. A running transfer has told its source to send, a
      verifying one has told its target to commit the declared size and the source's digest. So has a completed
      one, and a failed or cancelled one has told each peer, unless the session concerned is closed. */
  lemma NothingForgotten(run: seq<World>, i: nat, id: TransferId)
    requires IsRun(run) && i < |run| && id in run[i].objs && run[i].objs[id].relay == None
    ensures var t := run[i].objs[id];
            var h := t.history;
            && (t.state == Running || t.state == Verifying ==> Event(h.src, SendGo) in h.log)
            && (t.state == Running ==> forall e :: e in h.log ==> !e.message.Commit?)
            && (t.state == Verifying ==> Event(h.tgt, Commit(t.size, t.digest)) in h.log)
            && (t.state == Failed || t.state == Cancelled ==>
                  && (Event(h.src, Cancel) in h.log || h.src in Closed(run[i]))
                  && (Event(h.tgt, Cancel) in h.log || h.tgt in Closed(run[i])))
            && (t.state == Completed ==>
                  && Event(h.src, SendGo) in h.log
                  && (Event(h.tgt, Commit(t.size, t.digest)) in h.log || h.tgt in Closed(run[i])))
  {
    AtRest(run, i, id);
    RestingLog(run[i].objs[id], run[i].now);
  }

  lemma AtRest(run: seq<World>, i: nat, id: TransferId)
    requires IsRun(run) && i < |run| && id in run[i].objs && run[i].objs[id].relay == None
    ensures Sound(run[i].objs[id], run[i].now) && Quiet(run[i].objs[id])
    ensures run[i].objs[id].history.unreachable <= Closed(run[i])
  {
    Reachable(run, i);
    assert Sound(run[i].objs[id], run[i].now) && RelayOk(run[i].objs[id], id, run[i].threads);
  }

  lemma RestingLog(t: Transfer, now: Clock)
    requires Sound(t, now) && Quiet(t)
    ensures var h := t.history;
            && (t.state == Running || t.state == Verifying || t.state == Completed ==> Event(h.src, SendGo) in h.log)
            && (t.state == Running ==> forall e :: e in h.log ==> !e.message.Commit?)
            && (t.state == Verifying ==> Event(h.tgt, Commit(t.size, t.digest)) in h.log)
            && (t.state == Completed ==> Event(h.tgt, Commit(t.size, t.digest)) in h.log || h.tgt in h.unreachable)
            && (t.state == Failed || t.state == Cancelled ==>
                  && (Event(h.src, Cancel) in h.log || h.src in h.unreachable)
                  && (Event(h.tgt, Cancel) in h.log || h.tgt in h.unreachable))
  {
    AcceptedLog(t.history.log, t.history.src, t.history.tgt);
    LogHolds(t, PhaseOf(t).value);
  }

  lemma LogHolds(t: Transfer, p: Phase)
    requires PhaseReads(t.history.log, p) && Addressed(t.history.log, t.history.src, t.history.tgt)
    ensures p.sending ==> Event(t.history.src, SendGo) in t.history.log
    ensures p.committed.Some? ==>
            Event(t.history.tgt, Commit(p.committed.value.size, p.committed.value.digest)) in t.history.log
    ensures p.committed.None? ==> forall e :: e in t.history.log ==> !e.message.Commit?
    ensures forall s :: s in p.told ==> Event(s, Cancel) in t.history.log
  {
  }

  /** A live transfer whose StartTransfer has left its relay section has sent both start messages. */
  lemma BothAsked(run: seq<World>, i: nat, id: TransferId)
    requires IsRun(run) && i < |run| && id in run[i].objs && !Final(run[i].objs[id].state)
    ensures var h := run[i].objs[id].history;
            StartInProgress(run[i], id) || (Event(h.tgt, TargetStart) in h.log && Event(h.src, SourceStart) in h.log)
  {
    Reachable(run, i);
    assert Sound(run[i].objs[id], run[i].now) && StarterOk(run[i], id);
  }

  /** The recheck after a chunk send always succeeds. */
  lemma RecheckHolds(run: seq<World>, i: nat, u: ThreadId)
    requires IsRun(run) && i < |run| && u in run[i].threads && run[i].threads[u].pc.ChunkSent?
    ensures var pc := run[i].threads[u].pc;
            pc.id in run[i].objs && StillExpected(pc.id in run[i].table, run[i].objs[pc.id], pc.sequence)
  {
    Reachable(run, i);
    assert ThreadOk(run[i], u);
  }

  // ----- The overflow guard of line 397

  /** The guard means "does not fit" for every chunk and every legal progress exactly when Size plus a
      maximal chunk is still a 64-bit word. */
  lemma GuardExactness(size: nat)
    requires size < WORD
    ensures (forall total: nat, length: nat :: total <= size && length <= MAX_PAYLOAD ==>
               (Overflows(total, length, size) <==> total + length > size))
            <==> size + MAX_PAYLOAD < WORD
  {
    if size + MAX_PAYLOAD >= WORD {
      var length := WORD - size;
      assert (size + length) % WORD == 0;
      assert !Overflows(size, length, size) && size + length > size;
    }
  }

  // ----- Completion

  /** A completed transfer had both peers ready, delivered an admitted stream that makes up the declared size, and
      both peers reported that size and one digest: its digest is sixty-four lower-case hexadecimal characters, and
      what each peer reported is that text, with letters of either case and white space around it. */
  lemma CompletedMeans(run: seq<World>, i: nat, id: TransferId)
    requires IsRun(run) && i < |run| && id in run[i].objs && run[i].objs[id].state == Completed
    ensures var t := run[i].objs[id];
            var h := t.history;
            && t.sourceReady && t.targetReady
            && t.transferred == t.size
            && h.delivered == |Payloads(h.log)| && Admitted(t.size, Payloads(h.log)) == Some(t.size)
            && h.sourceFinish.Some? && h.targetFinish.Some?
            && h.sourceFinish.value.size == t.size && h.targetFinish.value.size == t.size
            && LowerHexText(t.digest)
            && Spells(h.sourceFinish.value.digest, t.digest) && Spells(h.targetFinish.value.digest, t.digest)
  {
    Reachable(run, i);
    var t := run[i].objs[id];
    assert Sound(t, run[i].now);
    NormalIsLower(t.history.sourceFinish.value.digest);
    NormaliseExact(t.history.targetFinish.value.digest, t.digest);
    PhasePayloads(t.history.log, t.history.src, t.history.tgt);
    assert Payloads(t.history.log)[..t.history.delivered] == Payloads(t.history.log);
  }

  // ----- Progress of one transfer over a run

  /** One step of the world, seen by one transfer. */
  ghost predicate StepOf(t: Transfer, t': Transfer) {
    && Forward(t, t')
    && (t'.state == Completed && t.state != Completed ==> t.state == Verifying && t'.transferred == t.transferred)
    && (t.state == Preparing && t'.state == Running ==> t'.sourceReady && t'.targetReady)
  }

  /** States move forward, final ones are absorbing, the declared size is frozen once running, the log only grows. */
  ghost predicate Forward(t: Transfer, t': Transfer) {
    && Rank(t.state) <= Rank(t'.state)
    && (Final(t.state) ==>
        t'.state == t.state && t'.nextSeq == t.nextSeq && t'.transferred == t.transferred && t'.digest == t.digest)
    && (t.state != Preparing ==> t'.size == t.size)
    && (t.readyClosed ==> t'.readyClosed)
    && t.history.log <= t'.history.log
    && t.history.delivered <= t'.history.delivered
    && t'.sourceDevice == t.sourceDevice && t'.targetDevice == t.targetDevice
    && t'.history.src == t.history.src && t'.history.tgt == t.history.tgt
  }

  lemma RegionForward(t: Transfer, pc: Pc, u: ThreadId, listed: bool, now: Clock)
    requires pc.Region? && Sound(t, now) && HolderOk(t, pc, u, now)
    ensures StepOf(t, RegionStep(t, pc.id, pc.op, listed, now).0)
  {
    match pc.op
    case StartOp =>
    case SourceReadyOp(_, _) =>
    case TargetReadyOp(_) =>
    case ChunkOp(_, _, _) =>
    case SourceFinishOp(_, _, _) =>
    case CancelOp =>
    case FailOp =>
    case ExpireOp =>
  }

  lemma SendForward(t: Transfer, pc: Pc, u: ThreadId, listed: bool, closed: set<SessionId>, ok: bool, now: Clock)
    requires pc.Hand? && HolderOk(t, pc, u, now)
    ensures StepOf(t, HolderStep(t, pc, listed, closed, ok, now).0)
  {
  }

  lemma TellForward(t: Transfer, pc: Pc, u: ThreadId, listed: bool, closed: set<SessionId>, ok: bool, now: Clock)
    requires pc.TellCancel? && HolderOk(t, pc, u, now)
    ensures StepOf(t, HolderStep(t, pc, listed, closed, ok, now).0)
  {
  }

  lemma HolderForward(t: Transfer, pc: Pc, u: ThreadId, listed: bool, closed: set<SessionId>, ok: bool, now: Clock)
    requires Holding(pc).Some? && !pc.Unlock? && Sound(t, now) && HolderOk(t, pc, u, now)
    ensures StepOf(t, HolderStep(t, pc, listed, closed, ok, now).0)
  {
    if pc.Region? {
      RegionForward(t, pc, u, listed, now);
    } else if pc.Hand? {
      SendForward(t, pc, u, listed, closed, ok, now);
    } else if pc.TellCancel? {
      TellForward(t, pc, u, listed, closed, ok, now);
    }
  }

  /** Steps outside relayMu that cannot touch a transfer. */
  lemma BystanderStep(w: World, w': World, s: Step, pc: Pc)
    requires StepAt(w, w', s, pc) && Holding(pc) == None && !pc.Publish? && !pc.TargetFinish? && !pc.WantRelay?
    ensures w'.objs == w.objs
  {
  }

  lemma PublishForward(w: World, w': World, s: Step, pc: Pc, id: TransferId)
    requires StepAt(w, w', s, pc) && pc.Publish? && id in w.objs
    ensures id in w'.objs && w'.objs[id] == w.objs[id]
  {
  }

  lemma FinishForward(w: World, w': World, s: Step, pc: Pc, id: TransferId)
    requires StepAt(w, w', s, pc) && pc.TargetFinish?
    requires id in w.objs && Sound(w.objs[id], w.now)
    ensures w'.objs.Keys == w.objs.Keys && StepOf(w.objs[id], w'.objs[id])
  {
    if w'.objs != w.objs {
      assert w'.objs == w.objs[pc.id := Complete(w.objs[pc.id], pc.size, pc.raw, w.now)];
      if id == pc.id { CompleteForward(w.objs[id], pc.size, pc.raw, w.now); }
    }
  }

  lemma CompleteForward(t: Transfer, size: nat, raw: string, now: Clock)
    requires t.state == Verifying && Sound(t, now)
    ensures StepOf(t, Complete(t, size, raw, now))
  {
  }

  lemma LockForward(w: World, w': World, s: Step, pc: Pc, id: TransferId)
    requires StepAt(w, w', s, pc) && (pc.WantRelay? || pc.Unlock?) && id in w.objs
    ensures w'.objs.Keys == w.objs.Keys && w'.objs[id] == w.objs[id].(relay := w'.objs[id].relay)
  {
  }

  lemma RunForward(w: World, w': World, s: Step, pc: Pc, id: TransferId)
    requires TransfersSound(w) && ThreadsOk(w) && StepAt(w, w', s, pc) && id in w.objs
    ensures id in w'.objs && StepOf(w.objs[id], w'.objs[id])
  {
    assert Sound(w.objs[id], w.now);
    if pc.Publish? {
      PublishForward(w, w', s, pc, id);
    } else if pc.TargetFinish? {
      FinishForward(w, w', s, pc, id);
    } else if pc.WantRelay? || pc.Unlock? {
      LockForward(w, w', s, pc, id);
    } else if Holding(pc) == None {
      BystanderStep(w, w', s, pc);
    } else {
      OwnerForward(w, w', s, pc, id);
    }
  }

  lemma OwnerForward(w: World, w': World, s: Step, pc: Pc, id: TransferId)
    requires ThreadsOk(w) && StepAt(w, w', s, pc) && Holding(pc).Some? && !pc.Unlock?
    requires id in w.objs && Sound(w.objs[id], w.now)
    ensures w'.objs.Keys == w.objs.Keys && StepOf(w.objs[id], w'.objs[id])
  {
    assert ThreadOk(w, s.thread);
    assert HolderNext(w, w', s.thread, Holding(pc).value, s.ok);
    if Holding(pc) == Some(id) {
      HolderForward(w.objs[id], pc, s.thread, id in w.table, Closed(w), s.ok, w.now);
    }
  }

  /** No step removes a transfer or moves it backward. */
  lemma NextForward(w: World, w': World, s: Step, id: TransferId)
    requires TransfersSound(w) && ThreadsOk(w) && Next(w, w', s) && id in w.objs
    ensures id in w'.objs && StepOf(w.objs[id], w'.objs[id])
  {
    if s.Run? { RunForward(w, w', s, w.threads[s.thread].pc, id); }
  }

  /** Consecutive worlds of a run. */
  lemma StepOfRun(run: seq<World>, i: nat) returns (s: Step)
    requires IsRun(run) && i + 1 < |run|
    ensures Next(run[i], run[i + 1], s) && TransfersSound(run[i]) && ThreadsOk(run[i])
  {
    Reachable(run, i);
    assert Linked(run[i], run[i + 1]);
    s :| Next(run[i], run[i + 1], s);
  }

  lemma ForwardTransitive(a: Transfer, b: Transfer, c: Transfer)
    requires Forward(a, b) && Forward(b, c)
    ensures Forward(a, c)
  {
  }

  /** Over any stretch of any run a transfer only moves forward. */
  lemma {:induction false} OnlyForward(run: seq<World>, i: nat, j: nat, id: TransferId)
    requires IsRun(run) && i <= j < |run| && id in run[i].objs
    ensures id in run[j].objs && Forward(run[i].objs[id], run[j].objs[id])
    decreases j
  {
    if i < j {
      OnlyForward(run, i, j - 1, id);
      assert id in run[j].objs && Forward(run[j - 1].objs[id], run[j].objs[id]) by {
        var s := StepOfRun(run, j - 1);
        NextForward(run[j - 1], run[j], s, id);
      }
      ForwardTransitive(run[i].objs[id], run[j - 1].objs[id], run[j].objs[id]);
    }
  }

  /** Completion happens only from Verifying, and setting Transferred to Size then changes nothing. */
  lemma CompletesFromVerifying(run: seq<World>, i: nat, id: TransferId)
    requires IsRun(run) && i + 1 < |run| && id in run[i].objs && run[i].objs[id].state != Completed
    requires id in run[i + 1].objs && run[i + 1].objs[id].state == Completed
    ensures run[i].objs[id].state == Verifying
    ensures run[i + 1].objs[id].transferred == run[i].objs[id].transferred
  {
    var s := StepOfRun(run, i);
    NextForward(run[i], run[i + 1], s, id);
  }

  /** The ready channel is closed exactly when preparation is over, the sessions are dropped exactly when the transfer
      is over. */
  lemma StateFields(run: seq<World>, i: nat, id: TransferId)
    requires IsRun(run) && i < |run| && id in run[i].objs
    ensures var t := run[i].objs[id];
            && (t.readyClosed <==> t.state != Preparing)
            && (t.source == None <==> Final(t.state)) && (t.target == None <==> Final(t.state))
            && (t.state == Preparing ==> !(t.sourceReady && t.targetReady))
  {
    Reachable(run, i);
    assert Sound(run[i].objs[id], run[i].now);
  }

  /** Either order of the two ready messages, at whatever times they come, leads to the same transfer but for the
      date, and to one SendGo, sent by the later. */
  lemma ReadyOrderIrrelevant(
      t: Transfer, src: SessionId, tgt: SessionId, size: nat, early: Clock, late: Clock, first: Clock, second: Clock)
    requires t.state == Preparing && !t.sourceReady && !t.targetReady && t.source == Some(src) && t.target == Some(tgt)
    ensures var (s1, o1) := SourceReadyRegion(true, t, src, size, early);
            var (s2, o2) := TargetReadyRegion(true, s1, tgt, late);
            var (t1, p1) := TargetReadyRegion(true, t, tgt, first);
            var (t2, p2) := SourceReadyRegion(true, t1, src, size, second);
            && s2 == Updated(t2, late) && s2.state == Running && s2.size == size
            && o1 == Leave && p1 == Leave && o2 == p2 == SendMessage(src, SendGo)
  {
  }

  /** The session a device message came from. */
  function Sender(op: Op): Option<SessionId> {
    match op
    case SourceReadyOp(from, _) => Some(from)
    case TargetReadyOp(from) => Some(from)
    case ChunkOp(from, _, _) => Some(from)
    case SourceFinishOp(from, _, _) => Some(from)
    case _ => None
  }

  /** The step that takes a transfer to a state other than failed or cancelled. */
  ghost predicate AdvancesBy(t: Transfer, t': Transfer, id: TransferId, pc: Pc) {
    match t'.state
    case Running =>
      && pc.Region? && pc.id == id
      && ((pc.op.SourceReadyOp? && pc.op.from == t.history.src)
          || (pc.op.TargetReadyOp? && pc.op.from == t.history.tgt))
    case Verifying => pc.Region? && pc.id == id && pc.op.SourceFinishOp? && pc.op.from == t.history.src
    case Completed => pc.TargetFinish? && pc.id == id && pc.from == t.history.tgt
    case _ => true
  }

  /** What one step can do to one transfer, and who can do it. Without relayMu: complete it from Verifying, on
      the target's word, or start its timer callback. With relayMu: only its owner. */
  ghost predicate Attributed(w: World, w': World, s: Step, id: TransferId)
    requires id in w.objs && id in w'.objs
  {
    var t, t' := w.objs[id], w'.objs[id];
    || t' == t
    || (s.Fire? && Fires(t, t'))
    || (s.Run? && s.thread in w.threads &&
        var pc := w.threads[s.thread].pc;
        || (pc.TargetFinish? && pc.id == id && pc.from == t.history.tgt && Completes(t, t'))
        || (pc.WantRelay? && pc.id == id && t.relay == None && t' == t.(relay := Some(s.thread)))
        || (Holding(pc) == Some(id) && t.relay == Some(s.thread) && (t'.state == t.state || AdvancesBy(t, t', id, pc))))
  }

  lemma RegionAttributed(t: Transfer, pc: Pc, u: ThreadId, listed: bool, now: Clock)
    requires pc.Region? && Sound(t, now) && HolderOk(t, pc, u, now)
    ensures var t' := RegionStep(t, pc.id, pc.op, listed, now).0;
            t'.state == t.state || AdvancesBy(t, t', pc.id, pc)
  {
  }

  lemma OwnerAttributed(t: Transfer, pc: Pc, u: ThreadId, id: TransferId, listed: bool, closed: set<SessionId>,
      ok: bool, now: Clock)
    requires Holding(pc) == Some(id) && !pc.Unlock? && Sound(t, now) && HolderOk(t, pc, u, now)
    ensures var t' := HolderStep(t, pc, listed, closed, ok, now).0;
            t'.state == t.state || AdvancesBy(t, t', id, pc)
  {
    if pc.Region? { RegionAttributed(t, pc, u, listed, now); }
  }

  /** The target's finish changes nothing, or completes the transfer it names on the target's word. */
  lemma FinishChanges(w: World, w': World, s: Step, pc: Pc)
    requires StepAt(w, w', s, pc) && pc.TargetFinish?
    ensures w'.objs == w.objs
            || (pc.id in w.objs && w.objs[pc.id].state == Verifying && w.objs[pc.id].target == Some(pc.from)
                && w'.objs == w.objs[pc.id := Complete(w.objs[pc.id], pc.size, pc.raw, w.now)])
  {
  }

  lemma FinishAttributed(w: World, w': World, s: Step, pc: Pc, id: TransferId)
    requires StepAt(w, w', s, pc) && pc.TargetFinish?
    requires id in w.objs && Sound(w.objs[id], w.now)
    ensures id in w'.objs && Attributed(w, w', s, id)
  {
    FinishChanges(w, w', s, pc);
  }

  lemma LockAttributed(w: World, w': World, s: Step, pc: Pc, id: TransferId)
    requires StepAt(w, w', s, pc) && (pc.WantRelay? || pc.Unlock?) && id in w.objs && ThreadOk(w, s.thread)
    ensures id in w'.objs && Attributed(w, w', s, id)
  {
  }

  lemma HolderAttributed(w: World, w': World, s: Step, pc: Pc, id: TransferId)
    requires StepAt(w, w', s, pc) && Holding(pc).Some? && !pc.Unlock? && ThreadOk(w, s.thread)
    requires id in w.objs && Sound(w.objs[id], w.now)
    ensures id in w'.objs && Attributed(w, w', s, id)
  {
    assert HolderNext(w, w', s.thread, Holding(pc).value, s.ok);
    if Holding(pc) == Some(id) {
      OwnerAttributed(w.objs[id], pc, s.thread, id, id in w.table, Closed(w), s.ok, w.now);
    }
  }

  lemma StepAttributed(w: World, w': World, s: Step, pc: Pc, id: TransferId)
    requires StepAt(w, w', s, pc) && ThreadOk(w, s.thread)
    requires id in w.objs && Sound(w.objs[id], w.now)
    ensures id in w'.objs && Attributed(w, w', s, id)
  {
    if pc.Publish? {
      PublishForward(w, w', s, pc, id);
    } else if pc.TargetFinish? {
      FinishAttributed(w, w', s, pc, id);
    } else if pc.WantRelay? || pc.Unlock? {
      LockAttributed(w, w', s, pc, id);
    } else if Holding(pc) == None {
      BystanderStep(w, w', s, pc);
    } else {
      HolderAttributed(w, w', s, pc, id);
    }
  }

  lemma EnvironmentAttributed(w: World, w': World, s: Step, id: TransferId)
    requires Next(w, w', s) && !s.Run? && id in w.objs
    ensures id in w'.objs && Attributed(w, w', s, id)
  {
  }

  /** In any run, every change of a transfer has an author with the right to make it. */
  lemma EveryChangeAttributed(run: seq<World>, i: nat, s: Step, id: TransferId)
    requires IsRun(run) && i + 1 < |run| && Next(run[i], run[i + 1], s) && id in run[i].objs
    ensures id in run[i + 1].objs && Attributed(run[i], run[i + 1], s, id)
  {
    if s.Run? {
      assert ThreadOk(run[i], s.thread) && Sound(run[i].objs[id], run[i].now) by { Reachable(run, i); }
      StepAttributed(run[i], run[i + 1], s, run[i].threads[s.thread].pc, id);
    } else {
      EnvironmentAttributed(run[i], run[i + 1], s, id);
    }
  }

  /** While a thread owns relayMu, the only things others can do to its transfer are to complete it, from
      Verifying and on the target's word, and to start its timer callback. */
  lemma OwnerUndisturbed(run: seq<World>, i: nat, s: Step, u: ThreadId, id: TransferId)
    requires IsRun(run) && i + 1 < |run| && Next(run[i], run[i + 1], s) && !(s.Run? && s.thread == u)
    requires u in run[i].threads && Holding(run[i].threads[u].pc) == Some(id)
    ensures id in run[i].objs && id in run[i + 1].objs
    ensures var t, t' := run[i].objs[id], run[i + 1].objs[id];
            || t' == t
            || (s.Fire? && Fires(t, t'))
            || (s.Run? && s.thread in run[i].threads && run[i].threads[s.thread].pc.TargetFinish?
                && run[i].threads[s.thread].pc.from == t.history.tgt && Completes(t, t'))
  {
    assert ThreadOk(run[i], u) by { Reachable(run, i); }
    EveryChangeAttributed(run, i, s, id);
  }

  /** Only the peers advance a transfer: the ready messages of both start it, the source's finish takes it to
      Verifying, the target's finish completes it. */
  lemma OnlyPeersAdvance(run: seq<World>, i: nat, s: Step, id: TransferId)
    requires IsRun(run) && i + 1 < |run| && Next(run[i], run[i + 1], s) && id in run[i].objs
    ensures id in run[i + 1].objs
    ensures var t, t' := run[i].objs[id], run[i + 1].objs[id];
            t'.state != t.state && t'.state != Failed && t'.state != Cancelled ==>
              && t'.state != Preparing
              && s.Run? && s.thread in run[i].threads && AdvancesBy(t, t', id, run[i].threads[s.thread].pc)
  {
    EveryChangeAttributed(run, i, s, id);
    assert StepOf(run[i].objs[id], run[i + 1].objs[id]) by {
      var r := StepOfRun(run, i);
      NextForward(run[i], run[i + 1], r, id);
    }
  }

  // ----- Reservations and history

  /** A device is reserved for a transfer exactly when that transfer is live and uses the device. */
  lemma ReservedMeansLive(run: seq<World>, i: nat, d: Device, id: TransferId)
    requires IsRun(run) && i < |run|
    ensures var w := run[i];
            (d in w.active && w.active[d] == id) <==>
            (id in w.objs && !Final(w.objs[id].state) && (d == w.objs[id].sourceDevice || d == w.objs[id].targetDevice))
  {
    Reachable(run, i);
  }

  /** Live transfers are listed and share no device. */
  lemma LiveTransfersDisjoint(run: seq<World>, i: nat, id: TransferId, other: TransferId)
    requires IsRun(run) && i < |run| && id in Live(run[i]) && other in Live(run[i]) && id != other
    ensures id in run[i].table
    ensures var a, b := run[i].objs[id], run[i].objs[other];
            {a.sourceDevice, a.targetDevice} !! {b.sourceDevice, b.targetDevice} && a.sourceDevice != a.targetDevice
  {
    Reachable(run, i);
    assert Sound(run[i].objs[id], run[i].now);
  }

  /** The transfer table never outgrows the larger of 256 and the most transfers that were ever live at once. */
  lemma HistoryBounded(run: seq<World>, i: nat)
    requires IsRun(run) && i < |run|
    ensures run[i].table <= run[i].objs.Keys && Live(run[i]) <= run[i].table
    ensures |run[i].table| <= Max(MAX_HISTORY, run[i].peak)
    ensures run[i].peak == 0 || exists j :: 0 <= j <= i && run[i].peak == |Live(run[j])|
  {
    Reachable(run, i);
    PeakAttained(run, i);
  }

  lemma {:induction false} PeakAttained(run: seq<World>, i: nat)
    requires IsRun(run) && i < |run|
    ensures run[i].peak == 0 || exists j :: 0 <= j <= i && run[i].peak == |Live(run[j])|
  {
    if i > 0 {
      PeakAttained(run, i - 1);
      assert run[i].peak == run[i - 1].peak || run[i].peak == |Live(run[i])| by { PeakStep(run[i - 1], run[i]); }
    }
  }

  lemma PeakStep(w: World, w': World)
    requires Linked(w, w')
    ensures w'.peak == w.peak || w'.peak == |Live(w')|
  {
    var s :| Next(w, w', s);
    if s.Run? && w.threads[s.thread].pc.Publish? {
      PeakRaised(w, w', s, w.threads[s.thread].pc);
    } else {
      PeakUntouched(w, w', s);
    }
  }

  lemma PeakUntouched(w: World, w': World, s: Step)
    requires Next(w, w', s) && !(s.Run? && w.threads[s.thread].pc.Publish?)
    ensures w'.peak == w.peak
  {
    if s.Run? {
      if Holding(w.threads[s.thread].pc).Some? {
        PeakHeld(w, w', s, w.threads[s.thread].pc);
      } else {
        PeakFree(w, w', s, w.threads[s.thread].pc);
      }
    }
  }

  lemma PeakHeld(w: World, w': World, s: Step, pc: Pc)
    requires StepAt(w, w', s, pc) && Holding(pc).Some?
    ensures w'.peak == w.peak
  {
  }

  lemma PeakFree(w: World, w': World, s: Step, pc: Pc)
    requires StepAt(w, w', s, pc) && Holding(pc) == None && !pc.Publish?
    ensures w'.peak == w.peak
  {
  }

  lemma PeakRaised(w: World, w': World, s: Step, pc: Pc)
    requires StepAt(w, w', s, pc) && pc.Publish?
    ensures w'.peak == w.peak || w'.peak == |Live(w')|
  {
    if pc.a !in w.active && pc.b !in w.active { PeakAtPublication(w, w', s.thread, s.newId, s.kept); }
  }

  lemma PeakAtPublication(w: World, w': World, u: ThreadId, id: TransferId, kept: set<TransferId>)
    requires Publishes(w, w', u, id, kept)
    ensures w'.peak == w.peak || w'.peak == |Live(w')|
  {
  }

  // ----- Timers

  /** Every live transfer has exactly one armed timer or exactly one callback that has not yet decided. */
  lemma Watched(run: seq<World>, i: nat, id: TransferId)
    requires IsRun(run) && i < |run| && id in run[i].objs && !Final(run[i].objs[id].state)
    ensures var w := run[i];
            if w.objs[id].timer.Some? then
              && w.objs[id].timer.value <=
                   Max(w.objs[id].history.publishedAt, w.objs[id].history.progressAt) + IDLE_TIMEOUT + Skew(w.now)
              && forall u :: u in w.threads ==> ExpiringFor(w.threads[u].pc) != Some(id)
            else
              exists u :: u in w.threads && ExpiringFor(w.threads[u].pc) == Some(id)
                && forall v :: v in w.threads && ExpiringFor(w.threads[v].pc) == Some(id) ==> v == u
  {
    Reachable(run, i);
    var w := run[i];
    assert Sound(w.objs[id], w.now) && ExpirerOk(w, id);
    forall v | v in w.threads && ExpiringFor(w.threads[v].pc) == Some(id)
      ensures w.objs[id].history.expirer == Some(v)
    {
      assert ThreadOk(w, v);
    }
  }

  /** No timer outlives its transfer. */
  lemma NoTimerAfterEnd(run: seq<World>, i: nat, id: TransferId)
    requires IsRun(run) && i < |run| && id in run[i].objs && Final(run[i].objs[id].state)
    ensures run[i].objs[id].timer == None
  {
    Reachable(run, i);
    assert Sound(run[i].objs[id], run[i].now);
  }

  /** A callback that goes on to fail a live transfer does so two minutes or more after the last update, less the
      time by which the wall clock was stepped, although it has let go of transferMu since it looked. */
  lemma ExpiryOnlyWhenIdle(run: seq<World>, i: nat, u: ThreadId, id: TransferId)
    requires IsRun(run) && i < |run| && u in run[i].threads && run[i].threads[u].pc == FailNow(id, true)
    ensures id in run[i].objs
    ensures !Final(run[i].objs[id].state) ==>
              run[i].objs[id].history.progressAt + IDLE_TIMEOUT <= run[i].now.mono + Skew(run[i].now)
  {
    Reachable(run, i);
    assert ThreadOk(run[i], u);
  }

  /** A callback that gets to look at a live transfer finds no timer armed. If the transfer has been idle for less
      than two minutes by the wall clock, the callback arms one for the rest of them and is done; if not, it goes on
      to fail the transfer, as it is. */
  lemma ExpiryDecides(run: seq<World>, i: nat, s: Step, id: TransferId)
    requires IsRun(run) && i + 1 < |run| && Next(run[i], run[i + 1], s) && s.Run? && s.thread in run[i].threads
    requires run[i].threads[s.thread].pc == Region(id, ExpireOp) && id in run[i].objs && !Final(run[i].objs[id].state)
    ensures id in run[i + 1].objs && s.thread in run[i + 1].threads && run[i].objs[id].timer == None
    ensures var t, t' := run[i].objs[id], run[i + 1].objs[id];
            var idle := Wall(run[i].now) - t.updatedAt;
            if idle < IDLE_TIMEOUT then
              && t' == t.(timer := Some(run[i].now.mono + (IDLE_TIMEOUT - idle)),
                  history := t.history.(expirer := None))
              && run[i + 1].threads[s.thread].pc == Unlock(id)
            else t' == t && run[i + 1].threads[s.thread].pc == FailNow(id, true)
  {
    ExpiryKnows(run, i, s.thread, id);
    HolderSteps(run[i], run[i + 1], s, run[i].threads[s.thread].pc, id);
  }

  lemma ExpiryKnows(run: seq<World>, i: nat, u: ThreadId, id: TransferId)
    requires IsRun(run) && i < |run| && u in run[i].threads && run[i].threads[u].pc == Region(id, ExpireOp)
    requires id in run[i].objs && !Final(run[i].objs[id].state)
    ensures id in run[i].table && run[i].objs[id].timer == None
  {
    Reachable(run, i);
    assert Sound(run[i].objs[id], run[i].now) && ThreadOk(run[i], u);
  }

  lemma HolderSteps(w: World, w': World, s: Step, pc: Pc, id: TransferId)
    requires StepAt(w, w', s, pc) && Holding(pc) == Some(id) && !pc.Unlock? && id in w.objs
    ensures id in w'.objs && s.thread in w'.threads
    ensures (w'.objs[id], w'.threads[s.thread].pc) == HolderStep(w.objs[id], pc, id in w.table, Closed(w), s.ok, w.now)
  {
    assert HolderNext(w, w', s.thread, id, s.ok);
  }

  // ----- Detach

  /** Once a Detach of session `s` has returned, a live transfer that still refers to `s` is one whose
      StartTransfer is still in its relay section. */
  lemma NoOrphans(run: seq<World>, i: nat, s: SessionId, id: TransferId)
    requires IsRun(run) && i < |run| && s in run[i].detached
    requires id in run[i].objs && Refers(run[i].objs[id], s)
    ensures !Final(run[i].objs[id].state) && StartInProgress(run[i], id)
  {
    Reachable(run, i);
    assert DetachedOk(run[i], s) && StarterOk(run[i], id) && Sound(run[i].objs[id], run[i].now);
  }

  // ----- Waiting

  /** Whoever waits for a relayMu waits for a thread that waits for none and can move: it is inside a
      transport or has an enabled step. */
  lemma RelayWaitersAreServed(run: seq<World>, i: nat, u: ThreadId, id: TransferId, op: Op)
    requires IsRun(run) && i < |run| && u in run[i].threads && run[i].threads[u].pc == WantRelay(id, op)
    requires id in run[i].objs && run[i].objs[id].relay.Some?
    ensures var v := run[i].objs[id].relay.value;
            && v != u && v in run[i].threads && !run[i].threads[v].pc.WantRelay?
            && exists w' :: Next(run[i], w', Run(v, true, 0, {}, []))
  {
    Reachable(run, i);
    var w := run[i];
    var v := w.objs[id].relay.value;
    assert RelayOk(w.objs[id], id, w.threads);
    var pc := w.threads[v].pc;
    var w': World;
    if pc.Unlock? {
      var next := if w.threads[v].starting then AwaitReady(id) else NextFailure;
      w' := At(Update(w, id, w.objs[id].(relay := None)), v, next);
    } else {
      var t := w.objs[id];
      var (t1, pc1) := HolderStep(t, pc, id in w.table, Closed(w), true, w.now);
      w' := At(Update(w, id, t1), v, pc1).(
               active := if Final(t1.state) && !Final(t.state) then ReleaseDevices(w.active, id, t) else w.active);
    }
    assert Next(w, w', Run(v, true, 0, {}, []));
  }
}
