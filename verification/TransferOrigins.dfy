/** Where messages come from and when the idle clock is set back: facts about consecutive states of a run that
    say which handler caused what. */
module TransferOrigins {
  import opened Common
  import opened TransferModel
  import opened TransferLog
  import opened TransferEngine
  import opened TransferLocal
  import opened TransferInvariant
  import opened TransferRun
  import opened TransferTheorems

  // ----- Messages

  /** The device message that makes the gateway send `m`: a chunk is the source's chunk, unchanged; a commit
      repeats the size and the normalised digest of the source's finish; `transfer_send` answers a ready. */
  predicate Causes(op: Op, src: SessionId, tgt: SessionId, m: Message) {
    match m
    case SendGo => (op.SourceReadyOp? && op.from == src) || (op.TargetReadyOp? && op.from == tgt)
    case Chunk(sequence, payload) => op == ChunkOp(src, sequence, payload)
    case Commit(size, digest) => op.SourceFinishOp? && op.from == src && op.size == size && Normalise(op.raw) == digest
    case _ => false
  }

  /** At or before state `i`, a handler that owned relayMu of `id` worked on a message that causes `m`. */
  ghost predicate Caused(run: seq<World>, i: nat, id: TransferId, m: Message) {
    exists j: nat, u: ThreadId :: j <= i && j < |run| && u in run[j].threads && CausedAt(run[j], u, id, m)
  }

  ghost predicate CausedAt(w: World, u: ThreadId, id: TransferId, m: Message)
    requires u in w.threads
  {
    && id in w.objs && w.threads[u].pc.Region? && w.threads[u].pc.id == id
    && Causes(w.threads[u].pc.op, w.objs[id].history.src, w.objs[id].history.tgt, m)
  }

  lemma RegionCauses(t: Transfer, pc: Pc, u: ThreadId, listed: bool, closed: set<SessionId>, ok: bool, now: Clock)
    requires Holding(pc).Some? && !pc.Unlock? && Sound(t, now) && HolderOk(t, pc, u, now)
    ensures var next := HolderStep(t, pc, listed, closed, ok, now).1;
            next.Hand? && MovesData(next.message) ==>
              && next.id == pc.id && pc.Region? && Causes(pc.op, t.history.src, t.history.tgt, next.message)
              && !Final(HolderStep(t, pc, listed, closed, ok, now).0.state)
  {
  }

  /** A thread about to hand over a data message was so before, or has just worked on its cause. */
  lemma HandCaused(w: World, w': World, s: Step, v: ThreadId)
    requires TransfersSound(w) && ThreadsOk(w) && Next(w, w', s)
    requires v in w'.threads && w'.threads[v].pc.Hand? && MovesData(w'.threads[v].pc.message)
    ensures v in w.threads
    ensures var pc := w'.threads[v].pc;
            w.threads[v].pc == pc
                || (CausedAt(w, v, pc.id, pc.message) && pc.id in w'.objs && !Final(w'.objs[pc.id].state))
  {
    if s.Run? && s.thread == v {
      if Holding(w.threads[v].pc).Some? && !w.threads[v].pc.Unlock? {
        OwnHandCaused(w, w', s, w.threads[v].pc);
      } else {
        FreeHandsNothing(w, w', s, w.threads[v].pc);
      }
    } else {
      OtherThreads(w, w', s, v);
    }
  }

  lemma OwnHandCaused(w: World, w': World, s: Step, pc: Pc)
    requires TransfersSound(w) && StepAt(w, w', s, pc) && ThreadOk(w, s.thread) && Holding(pc).Some? && !pc.Unlock?
    ensures s.thread in w'.threads
    ensures var next := w'.threads[s.thread].pc;
            next.Hand? && MovesData(next.message) ==>
              CausedAt(w, s.thread, next.id, next.message) && next.id in w'.objs && !Final(w'.objs[next.id].state)
  {
    var id := Holding(pc).value;
    assert HolderNext(w, w', s.thread, id, s.ok) && Sound(w.objs[id], w.now);
    RegionCauses(w.objs[id], pc, s.thread, id in w.table, Closed(w), s.ok, w.now);
  }

  /** No hand-over is under way. */
  predicate Unburdened(pc: Pc) {
    Holding(pc) == None || pc.Region?
  }

  /** A step of a thread moves that thread alone. */
  ghost predicate MovesOnlyItself(w: World, w': World, u: ThreadId) {
    forall v :: v != u ==>
      (v in w'.threads <==> v in w.threads) && (v in w.threads ==> w'.threads[v] == w.threads[v])
  }

  lemma HeldStep(w: World, w': World, s: Step, pc: Pc)
    requires StepAt(w, w', s, pc) && Holding(pc).Some? && !pc.Unlock?
    ensures MovesOnlyItself(w, w', s.thread)
  {
    assert HolderNext(w, w', s.thread, Holding(pc).value, s.ok);
  }

  lemma PublishStep(w: World, w': World, s: Step, pc: Pc)
    requires StepAt(w, w', s, pc) && pc.Publish?
    ensures MovesOnlyItself(w, w', s.thread)
    ensures s.thread in w'.threads ==> Unburdened(w'.threads[s.thread].pc)
  {
  }

  lemma FinishStep(w: World, w': World, s: Step, pc: Pc)
    requires StepAt(w, w', s, pc) && pc.TargetFinish?
    ensures MovesOnlyItself(w, w', s.thread)
    ensures s.thread in w'.threads ==> Unburdened(w'.threads[s.thread].pc)
  {
  }

  lemma LockStep(w: World, w': World, s: Step, pc: Pc)
    requires StepAt(w, w', s, pc) && (pc.WantRelay? || pc.Unlock?)
    ensures MovesOnlyItself(w, w', s.thread)
    ensures s.thread in w'.threads ==> Unburdened(w'.threads[s.thread].pc)
  {
  }

  lemma ResolveStep(w: World, w': World, s: Step, pc: Pc)
    requires StepAt(w, w', s, pc) && (pc.ResolveSource? || pc.ResolveTarget?)
    ensures MovesOnlyItself(w, w', s.thread)
    ensures s.thread in w'.threads ==> Unburdened(w'.threads[s.thread].pc)
  {
  }

  lemma CheckStep(w: World, w': World, s: Step, pc: Pc)
    requires StepAt(w, w', s, pc) && pc.SourceFinishCheck?
    ensures MovesOnlyItself(w, w', s.thread)
    ensures s.thread in w'.threads ==> Unburdened(w'.threads[s.thread].pc)
  {
  }

  lemma PeerFailedStep(w: World, w': World, s: Step, pc: Pc)
    requires StepAt(w, w', s, pc) && pc.PeerFailedCheck?
    ensures MovesOnlyItself(w, w', s.thread)
    ensures s.thread in w'.threads ==> Unburdened(w'.threads[s.thread].pc)
  {
  }

  lemma CancelledStep(w: World, w': World, s: Step, pc: Pc)
    requires StepAt(w, w', s, pc) && pc.SourceCancelledCheck?
    ensures MovesOnlyItself(w, w', s.thread)
    ensures s.thread in w'.threads ==> Unburdened(w'.threads[s.thread].pc)
  {
  }

  lemma LookupStep(w: World, w': World, s: Step, pc: Pc)
    requires StepAt(w, w', s, pc) && pc.Lookup?
    ensures MovesOnlyItself(w, w', s.thread)
    ensures s.thread in w'.threads ==> Unburdened(w'.threads[s.thread].pc)
  {
  }

  lemma LateStep(w: World, w': World, s: Step, pc: Pc)
    requires StepAt(w, w', s, pc) && (pc.AwaitReady? || pc.NextFailure?)
    ensures MovesOnlyItself(w, w', s.thread)
    ensures s.thread in w'.threads ==> Unburdened(w'.threads[s.thread].pc)
  {
  }

  lemma DetachStep(w: World, w': World, s: Step, pc: Pc)
    requires StepAt(w, w', s, pc) && (pc.Unregister? || pc.CloseSession? || pc.Scan? || pc.ScanAll?)
    ensures MovesOnlyItself(w, w', s.thread)
    ensures s.thread in w'.threads ==> Unburdened(w'.threads[s.thread].pc)
  {
  }

  lemma FreeHandsNothing(w: World, w': World, s: Step, pc: Pc)
    requires StepAt(w, w', s, pc) && (Holding(pc) == None || pc.Unlock?)
    ensures MovesOnlyItself(w, w', s.thread)
    ensures s.thread in w'.threads ==> Unburdened(w'.threads[s.thread].pc)
  {
    match pc
    case Publish(_, _, _, _, _) => PublishStep(w, w', s, pc);
    case TargetFinish(_, _, _, _) => FinishStep(w, w', s, pc);
    case WantRelay(_, _) => LockStep(w, w', s, pc);
    case Unlock(_) => LockStep(w, w', s, pc);
    case ResolveSource(_, _) => ResolveStep(w, w', s, pc);
    case ResolveTarget(_, _, _) => ResolveStep(w, w', s, pc);
    case AwaitReady(_) => LateStep(w, w', s, pc);
    case NextFailure => LateStep(w, w', s, pc);
    case SourceFinishCheck(_, _, _, _) => CheckStep(w, w', s, pc);
    case PeerFailedCheck(_, _) => PeerFailedStep(w, w', s, pc);
    case SourceCancelledCheck(_, _) => CancelledStep(w, w', s, pc);
    case Lookup(_, _) => LookupStep(w, w', s, pc);
    case _ => DetachStep(w, w', s, pc);
  }

  /** A step moves one thread; one that appears stands at the start of a handler. */
  lemma OtherThreads(w: World, w': World, s: Step, v: ThreadId)
    requires Next(w, w', s) && !(s.Run? && s.thread == v) && v in w'.threads
    ensures if v in w.threads then w'.threads[v] == w.threads[v] else !w'.threads[v].pc.Hand?
  {
    if s.Run? {
      var pc := w.threads[s.thread].pc;
      assert MovesOnlyItself(w, w', s.thread) by {
        if Holding(pc).Some? && !pc.Unlock? { HeldStep(w, w', s, pc); } else { FreeHandsNothing(w, w', s, pc); }
      }
    } else {
      EnvironmentSpawns(w, w', s, v);
    }
  }

  lemma EnvironmentSpawns(w: World, w': World, s: Step, v: ThreadId)
    requires Next(w, w', s) && !s.Run? && v in w'.threads
    ensures if v in w.threads then w'.threads[v] == w.threads[v] else !w'.threads[v].pc.Hand?
  {
  }

  /** One message at most, and a data message only by the thread that was about to hand it over. */
  ghost predicate Appends(w: World, w': World, s: Step, id: TransferId)
    requires id in w.objs && id in w'.objs
  {
    var log, log' := w.objs[id].history.log, w'.objs[id].history.log;
    || log' == log
    || (exists e :: log' == log + [e] &&
          (!MovesData(e.message) ||
           (s.Run? && s.thread in w.threads && w.threads[s.thread].pc == Hand(id, e.to, e.message))))
  }

  lemma RegionAppendsNothing(t: Transfer, pc: Pc, listed: bool, now: Clock)
    requires pc.Region?
    ensures RegionStep(t, pc.id, pc.op, listed, now).0.history.log == t.history.log
  {
  }

  lemma HolderAppends(t: Transfer, pc: Pc, listed: bool, closed: set<SessionId>, ok: bool, now: Clock)
    requires Holding(pc).Some? && !pc.Unlock?
    ensures var log, log' := t.history.log, HolderStep(t, pc, listed, closed, ok, now).0.history.log;
            || log' == log
            || (pc.Hand? && log' == log + [Event(pc.to, pc.message)])
            || (pc.TellCancel? && pc.peers != [] && log' == log + [Event(pc.peers[0], Cancel)])
  {
    if pc.Region? { RegionAppendsNothing(t, pc, listed, now); }
  }

  lemma OwnerAppends(w: World, w': World, s: Step, pc: Pc, id: TransferId)
    requires StepAt(w, w', s, pc) && Holding(pc).Some? && !pc.Unlock? && id in w.objs
    ensures id in w'.objs && Appends(w, w', s, id)
  {
    assert HolderNext(w, w', s.thread, Holding(pc).value, s.ok);
    if Holding(pc) == Some(id) {
      var t := w.objs[id];
      HolderAppends(t, pc, id in w.table, Closed(w), s.ok, w.now);
      if pc.Hand? {
        assert w'.objs[id].history.log != t.history.log ==>
            w'.objs[id].history.log == t.history.log + [Event(pc.to, pc.message)];
      } else if pc.TellCancel? && pc.peers != [] {
        assert w'.objs[id].history.log != t.history.log ==>
            w'.objs[id].history.log == t.history.log + [Event(pc.peers[0], Cancel)];
      }
    }
  }

  lemma StepAppends(w: World, w': World, s: Step, id: TransferId)
    requires TransfersSound(w) && ThreadsOk(w) && Next(w, w', s) && id in w.objs
    ensures id in w'.objs && Appends(w, w', s, id)
  {
    if s.Run? {
      var pc := w.threads[s.thread].pc;
      if Holding(pc).Some? && !pc.Unlock? {
        OwnerAppends(w, w', s, pc, id);
      } else {
        FreeAppendsNothing(w, w', s, pc, id);
      }
    }
  }

  lemma FreeAppendsNothing(w: World, w': World, s: Step, pc: Pc, id: TransferId)
    requires TransfersSound(w) && StepAt(w, w', s, pc) && (Holding(pc) == None || pc.Unlock?) && id in w.objs
    ensures id in w'.objs && w'.objs[id].history.log == w.objs[id].history.log
  {
    if pc.Publish? {
      PublishForward(w, w', s, pc, id);
    } else if pc.TargetFinish? {
      if w'.objs != w.objs {
        assert w'.objs == w.objs[pc.id := Complete(w.objs[pc.id], pc.size, pc.raw, w.now)];
      }
    } else if pc.WantRelay? || pc.Unlock? {
      LockForward(w, w', s, pc, id);
    } else {
      BystanderStep(w, w', s, pc);
    }
  }

  /** All data messages handed over, or about to be, have been caused. */
  ghost predicate AllCaused(run: seq<World>, i: nat)
    requires i < |run|
  {
    && (forall id, e :: id in run[i].objs && e in run[i].objs[id].history.log && MovesData(e.message) ==>
        Caused(run, i, id, e.message))
    && (forall u {:trigger HandOfCaused(run, i, u)} :: u in run[i].threads ==> HandOfCaused(run, i, u))
  }

  ghost predicate HandOfCaused(run: seq<World>, i: nat, u: ThreadId)
    requires i < |run| && u in run[i].threads
  {
    var pc := run[i].threads[u].pc;
    pc.Hand? && MovesData(pc.message) ==> Caused(run, i, pc.id, pc.message)
  }

  lemma CausedLater(run: seq<World>, i: nat, id: TransferId, m: Message)
    requires Caused(run, i, id, m)
    ensures Caused(run, i + 1, id, m)
  {
  }

  lemma HandsCaused(run: seq<World>, i: nat, j: nat, s: Step)
    requires j == i + 1 < |run| && AllCaused(run, i)
    requires TransfersSound(run[i]) && ThreadsOk(run[i]) && Next(run[i], run[j], s)
    ensures forall u {:trigger HandOfCaused(run, j, u)} :: u in run[j].threads ==> HandOfCaused(run, j, u)
  {
    forall u | u in run[j].threads ensures HandOfCaused(run, j, u) {
      var pc := run[j].threads[u].pc;
      if pc.Hand? && MovesData(pc.message) {
        HandCaused(run[i], run[j], s, u);
        if run[i].threads[u].pc == pc {
          assert HandOfCaused(run, i, u);
          CausedLater(run, i, pc.id, pc.message);
        }
      }
    }
  }

  lemma LogsCaused(run: seq<World>, i: nat, s: Step, id: TransferId, e: Event)
    requires i + 1 < |run| && AllCaused(run, i)
    requires TransfersSound(run[i]) && ThreadsOk(run[i]) && Next(run[i], run[i + 1], s)
    requires id in run[i + 1].objs && e in run[i + 1].objs[id].history.log && MovesData(e.message)
    ensures Caused(run, i + 1, id, e.message)
  {
    if id !in run[i].objs {
      NewLogEmpty(run[i], run[i + 1], s, id);
    } else {
      if e !in run[i].objs[id].history.log {
        StepAppends(run[i], run[i + 1], s, id);
        assert HandOfCaused(run, i, s.thread);
      }
      CausedLater(run, i, id, e.message);
    }
  }

  /** Only publication adds a transfer. */
  lemma TransfersKept(w: World, w': World, s: Step, pc: Pc)
    requires StepAt(w, w', s, pc) && !pc.Publish?
    ensures w'.objs.Keys == w.objs.Keys
  {
    if Holding(pc).Some? && !pc.Unlock? {
      OwnerKeeps(w, w', s, pc);
    } else if pc.TargetFinish? {
      FinishChanges(w, w', s, pc);
    } else if pc.WantRelay? || pc.Unlock? {
      LocksKeep(w, w', s, pc);
    } else {
      BystanderStep(w, w', s, pc);
    }
  }

  lemma OwnerKeeps(w: World, w': World, s: Step, pc: Pc)
    requires StepAt(w, w', s, pc) && Holding(pc).Some? && !pc.Unlock?
    ensures w'.objs.Keys == w.objs.Keys
  {
    assert HolderNext(w, w', s.thread, Holding(pc).value, s.ok);
  }

  lemma LocksKeep(w: World, w': World, s: Step, pc: Pc)
    requires StepAt(w, w', s, pc) && (pc.WantRelay? || pc.Unlock?)
    ensures w'.objs.Keys == w.objs.Keys
  {
  }

  lemma NewLogEmpty(w: World, w': World, s: Step, id: TransferId)
    requires Next(w, w', s) && id !in w.objs && id in w'.objs
    ensures w'.objs[id].history.log == []
    ensures exists pc :: StepAt(w, w', s, pc) && pc.Publish? && pc.a !in w.active && pc.b !in w.active
              && w'.objs[id] == Created(pc.a, pc.b, pc.src, pc.tgt, s.thread, pc.createdAt, w.now)
              && w'.active == w.active[pc.a := id][pc.b := id]
  {
    var pc := w.threads[s.thread].pc;
    if !pc.Publish? { TransfersKept(w, w', s, pc); }
    assert StepAt(w, w', s, pc);
  }

  /** A transfer appears in a run only as preparing, with nothing received and nothing sent, a timer armed for two
      minutes from then, and both its devices, which no live transfer was using, reserved for it. */
  lemma BornPreparing(run: seq<World>, i: nat, id: TransferId)
    requires IsRun(run) && i + 1 < |run| && id !in run[i].objs && id in run[i + 1].objs
    ensures var w, w' := run[i], run[i + 1];
            var t := w'.objs[id];
            && t.state == Preparing && !t.sourceReady && !t.targetReady && t.history.log == []
            && t.timer == Some(w.now.mono + IDLE_TIMEOUT) && t.relay == None
            && (forall d :: d == t.sourceDevice || d == t.targetDevice ==>
                  && d in w'.active && w'.active[d] == id
                  && forall other :: other in Live(w) ==>
                      d != w.objs[other].sourceDevice && d != w.objs[other].targetDevice)
  {
    var s := StepOfRun(run, i);
    NewLogEmpty(run[i], run[i + 1], s, id);
    forall other | other in Live(run[i])
      ensures run[i].objs[other].sourceDevice in run[i].active && run[i].objs[other].targetDevice in run[i].active
    {
      ReservedMeansLive(run, i, run[i].objs[other].sourceDevice, other);
      ReservedMeansLive(run, i, run[i].objs[other].targetDevice, other);
    }
  }

  lemma {:induction false} EverythingCaused(run: seq<World>, i: nat)
    requires IsRun(run) && i < |run|
    ensures AllCaused(run, i)
  {
    if i > 0 {
      EverythingCaused(run, i - 1);
      var s := StepOfRun(run, i - 1);
      HandsCaused(run, i - 1, i, s);
      forall id, e | id in run[i].objs && e in run[i].objs[id].history.log && MovesData(e.message)
        ensures Caused(run, i, id, e.message)
      {
        LogsCaused(run, i - 1, s, id, e);
      }
    }
  }

  /** Nothing is invented or altered on the way: in any run, every chunk handed to a target was offered by the
      source with this number and this payload, every commit repeats the source's finish message, and every
      `transfer_send` answers a peer's ready message. */
  lemma DataHasACause(run: seq<World>, i: nat, id: TransferId, k: nat)
    requires IsRun(run) && i < |run| && id in run[i].objs && k < |run[i].objs[id].history.log|
    requires MovesData(run[i].objs[id].history.log[k].message)
    ensures Caused(run, i, id, run[i].objs[id].history.log[k].message)
  {
    EverythingCaused(run, i);
    assert run[i].objs[id].history.log[k] in run[i].objs[id].history.log;
  }

  // ----- Data and completion

  /** The state in which each data message is handed over: `transfer_send` and chunks while running, a chunk with the
      number and within the size that are due, the commit once verifying or completed, with the declared size and
      the source's digest. */
  lemma HandOverState(run: seq<World>, i: nat, u: ThreadId)
    requires IsRun(run) && i < |run| && u in run[i].threads
    requires run[i].threads[u].pc.Hand? && MovesData(run[i].threads[u].pc.message)
    ensures run[i].threads[u].pc.id in run[i].objs
    ensures var pc := run[i].threads[u].pc;
            var t := run[i].objs[pc.id];
            match pc.message
            case SendGo => t.state == Running && pc.to == t.history.src
            case Chunk(sequence, payload) =>
              && t.state == Running && pc.to == t.history.tgt && sequence == t.nextSeq
              && !Overflows(t.transferred, |payload|, t.size)
            case Commit(size, digest) =>
              && (t.state == Verifying || t.state == Completed) && pc.to == t.history.tgt
              && size == t.size == t.transferred && digest == t.digest
            case _ => true
  {
    HolderKnows(run, i, u, run[i].threads[u].pc.id);
  }

  /** Since state `j`, thread `u` has stood at `pc`; the transfer was completed in the very next step. */
  ghost predicate Overtaken(run: seq<World>, j: nat, i: nat, u: ThreadId, pc: Pc, id: TransferId) {
    && j < i < |run|
    && id in run[j].objs && run[j].objs[id].state == Verifying
    && id in run[j + 1].objs && run[j + 1].objs[id].state == Completed
    && forall k :: j <= k <= i ==> u in run[k].threads && run[k].threads[u].pc == pc
  }

  /** Such a thread did not start to stand there after the completion. */
  lemma StoodThere(run: seq<World>, i: nat, u: ThreadId, id: TransferId)
    requires IsRun(run) && i < |run| && u in run[i].threads && id in run[i].objs && run[i].objs[id].state == Completed
    requires run[i].threads[u].pc.Hand? && run[i].threads[u].pc.id == id && MovesData(run[i].threads[u].pc.message)
    ensures i > 0 && u in run[i - 1].threads && run[i - 1].threads[u].pc == run[i].threads[u].pc
  {
    if i == 0 { StartsEmpty(run); }
    var s := StepOfRun(run, i - 1);
    SameHand(run[i - 1], run[i], s, u);
  }

  lemma StartsEmpty(run: seq<World>)
    requires IsRun(run)
    ensures run[0].threads == map[] && run[0].objs == map[]
  {
  }

  lemma SameHand(w: World, w': World, s: Step, v: ThreadId)
    requires TransfersSound(w) && ThreadsOk(w) && Next(w, w', s)
    requires v in w'.threads && w'.threads[v].pc.Hand? && MovesData(w'.threads[v].pc.message)
    requires w'.threads[v].pc.id in w'.objs && Final(w'.objs[w'.threads[v].pc.id].state)
    ensures v in w.threads && w.threads[v].pc == w'.threads[v].pc
  {
    HandCaused(w, w', s, v);
  }

  lemma VerifiedOrCompleted(run: seq<World>, i: nat, u: ThreadId, id: TransferId)
    requires IsRun(run) && i + 1 < |run| && u in run[i].threads && Holding(run[i].threads[u].pc) == Some(id)
    requires id in run[i + 1].objs && run[i + 1].objs[id].state == Completed
    ensures id in run[i].objs && (run[i].objs[id].state == Completed || run[i].objs[id].state == Verifying)
  {
    assert id in run[i].objs by { HolderKnows(run, i, u, id); }
    if run[i].objs[id].state != Completed { CompletesFromVerifying(run, i, id); }
  }

  lemma {:induction false} OvertakenSince(run: seq<World>, i: nat, u: ThreadId, id: TransferId) returns (j: nat)
    requires IsRun(run) && i < |run| && u in run[i].threads && id in run[i].objs && run[i].objs[id].state == Completed
    requires run[i].threads[u].pc.Hand? && run[i].threads[u].pc.id == id && MovesData(run[i].threads[u].pc.message)
    ensures Overtaken(run, j, i, u, run[i].threads[u].pc, id)
  {
    StoodThere(run, i, u, id);
    VerifiedOrCompleted(run, i - 1, u, id);
    if run[i - 1].objs[id].state == Completed { j := OvertakenSince(run, i - 1, u, id); } else { j := i - 1; }
  }

  /** A thread about to hand over data of a completed transfer is about to hand over its commit, and was so already
      when the target's finish completed the transfer. */
  lemma OnlyOvertakenCommits(run: seq<World>, i: nat, u: ThreadId, id: TransferId)
    requires IsRun(run) && i < |run| && u in run[i].threads && id in run[i].objs && run[i].objs[id].state == Completed
    requires run[i].threads[u].pc.Hand? && run[i].threads[u].pc.id == id && MovesData(run[i].threads[u].pc.message)
    ensures var t := run[i].objs[id]; run[i].threads[u].pc == Hand(id, t.history.tgt, Commit(t.size, t.digest))
    ensures exists j: nat :: Overtaken(run, j, i, u, run[i].threads[u].pc, id)
  {
    HandOverState(run, i, u);
    var j := OvertakenSince(run, i, u, id);
  }

  ghost predicate AppendsData(w: World, w': World, id: TransferId)
    requires id in w.objs && id in w'.objs
  {
    exists e: Event :: MovesData(e.message) && w'.objs[id].history.log == w.objs[id].history.log + [e]
  }

  /** A step appends data to the log of a completed transfer exactly when it hands over the overtaken commit to a
      session that is still open. */
  lemma DataAfterCompletion(run: seq<World>, i: nat, s: Step, id: TransferId)
    requires IsRun(run) && i + 1 < |run| && Next(run[i], run[i + 1], s)
    requires id in run[i].objs && run[i].objs[id].state == Completed
    ensures id in run[i + 1].objs
    ensures var t := run[i].objs[id];
            AppendsData(run[i], run[i + 1], id) <==>
              && s.Run? && s.thread in run[i].threads
              && run[i].threads[s.thread].pc == Hand(id, t.history.tgt, Commit(t.size, t.digest))
              && t.history.tgt !in Closed(run[i])
  {
    var w, w', t := run[i], run[i + 1], run[i].objs[id];
    assert TransfersSound(w) && ThreadsOk(w) by { Reachable(run, i); }
    StepAppends(w, w', s, id);
    if AppendsData(w, w', id) {
      var e: Event :| MovesData(e.message) && w'.objs[id].history.log == t.history.log + [e];
      assert (t.history.log + [e])[|t.history.log|] == e;
      var pc := w.threads[s.thread].pc;
      assert pc == Hand(id, e.to, e.message);
      HandOverState(run, i, s.thread);
      HandsIfOpen(w, w', s, pc, id);
    }
    if s.Run? && s.thread in w.threads && w.threads[s.thread].pc == Hand(id, t.history.tgt, Commit(t.size, t.digest)) {
      HandsIfOpen(w, w', s, w.threads[s.thread].pc, id);
    }
  }

  /** A hand-over is logged exactly if the session is open. */
  lemma HandsIfOpen(w: World, w': World, s: Step, pc: Pc, id: TransferId)
    requires StepAt(w, w', s, pc) && pc.Hand? && pc.id == id && id in w.objs
    ensures id in w'.objs
    ensures w'.objs[id].history.log ==
            w.objs[id].history.log + (if pc.to in Closed(w) then [] else [Event(pc.to, pc.message)])
  {
    assert HolderNext(w, w', s.thread, id, s.ok);
  }

  // ----- The idle clock

  /** A handler that owns relayMu of the transfer works on a ready message of the respective peer. */
  predicate TakesReady(t: Transfer, pc: Pc, id: TransferId) {
    && pc.Region? && pc.id == id
    && ((pc.op.SourceReadyOp? && pc.op.from == t.history.src) || (pc.op.TargetReadyOp? && pc.op.from == t.history.tgt))
  }

  /** The last update is dated now, by the wall clock. */
  predicate Dated(t: Transfer, now: Clock) {
    t.updatedAt == Wall(now) && t.history.progressAt == now.mono
  }

  /** Progress sets the time of the last update: a delivered chunk, a change of state or a ready message. */
  ghost predicate Clocked(t: Transfer, t': Transfer, now: Clock) {
    && (Dated(t', now) || (t'.updatedAt == t.updatedAt && t'.history.progressAt == t.history.progressAt))
    && (t'.state != t.state || t'.history.delivered != t.history.delivered ==> Dated(t', now))
    && (t'.sourceReady != t.sourceReady || t'.targetReady != t.targetReady ==> Dated(t', now))
  }

  /** Nothing else sets it. */
  ghost predicate ClockedBy(t: Transfer, t': Transfer, pc: Pc, id: TransferId) {
    t'.updatedAt != t.updatedAt || t'.history.progressAt != t.history.progressAt ==>
      || t'.state != t.state || t'.history.delivered == t.history.delivered + 1
      || (t.state == Preparing && TakesReady(t, pc, id))
  }

  lemma ReadyClocked(t: Transfer, pc: Pc, u: ThreadId, listed: bool, now: Clock)
    requires pc.Region? && (pc.op.SourceReadyOp? || pc.op.TargetReadyOp?) && Sound(t, now) && HolderOk(t, pc, u, now)
    ensures var t' := RegionStep(t, pc.id, pc.op, listed, now).0; Clocked(t, t', now) && ClockedBy(t, t', pc, pc.id)
  {
  }

  lemma RegionClocked(t: Transfer, pc: Pc, u: ThreadId, listed: bool, now: Clock)
    requires pc.Region? && Sound(t, now) && HolderOk(t, pc, u, now)
    ensures var t' := RegionStep(t, pc.id, pc.op, listed, now).0; Clocked(t, t', now) && ClockedBy(t, t', pc, pc.id)
  {
    if pc.op.SourceReadyOp? || pc.op.TargetReadyOp? { ReadyClocked(t, pc, u, listed, now); }
  }

  lemma SendClocked(t: Transfer, pc: Pc, listed: bool, closed: set<SessionId>, ok: bool, now: Clock)
    requires pc.Hand? || pc.InTransport? || pc.TellCancel? || pc.CancelInTransport?
    ensures var t' := HolderStep(t, pc, listed, closed, ok, now).0; Clocked(t, t', now) && ClockedBy(t, t', pc, pc.id)
  {
  }

  lemma HolderClocked(t: Transfer, pc: Pc, u: ThreadId, listed: bool, closed: set<SessionId>, ok: bool, now: Clock)
    requires Holding(pc).Some? && !pc.Unlock? && Sound(t, now) && HolderOk(t, pc, u, now)
    ensures var t' := HolderStep(t, pc, listed, closed, ok, now).0; Clocked(t, t', now) && ClockedBy(t, t', pc, pc.id)
  {
    if pc.Region? {
      RegionClocked(t, pc, u, listed, now);
    } else if !pc.ChunkSent? && !pc.FailNow? {
      SendClocked(t, pc, listed, closed, ok, now);
    }
  }

  lemma OwnerClocked(w: World, w': World, s: Step, pc: Pc, id: TransferId)
    requires StepAt(w, w', s, pc) && ThreadOk(w, s.thread) && Holding(pc).Some? && !pc.Unlock?
    requires id in w.objs && Sound(w.objs[id], w.now)
    ensures id in w'.objs && Clocked(w.objs[id], w'.objs[id], w.now) && ClockedBy(w.objs[id], w'.objs[id], pc, id)
  {
    assert HolderNext(w, w', s.thread, Holding(pc).value, s.ok);
    if Holding(pc) == Some(id) { HolderClocked(w.objs[id], pc, s.thread, id in w.table, Closed(w), s.ok, w.now); }
  }

  lemma FreeClocked(w: World, w': World, s: Step, pc: Pc, id: TransferId)
    requires StepAt(w, w', s, pc) && (Holding(pc) == None || pc.Unlock?) && id in w.objs
    ensures id in w'.objs && Clocked(w.objs[id], w'.objs[id], w.now) && ClockedBy(w.objs[id], w'.objs[id], pc, id)
  {
    if pc.Publish? {
      PublishForward(w, w', s, pc, id);
    } else if pc.TargetFinish? {
      if w'.objs != w.objs {
        assert w'.objs == w.objs[pc.id := Complete(w.objs[pc.id], pc.size, pc.raw, w.now)];
      }
    } else if pc.WantRelay? || pc.Unlock? {
      LockForward(w, w', s, pc, id);
    } else {
      BystanderStep(w, w', s, pc);
    }
  }

  /** In every step of every run, the time of the last update is set by progress, and by nothing else: a change of
      state, a delivered chunk, or a peer's ready message to a preparing transfer. */
  lemma IdleClock(run: seq<World>, i: nat, s: Step, id: TransferId)
    requires IsRun(run) && i + 1 < |run| && Next(run[i], run[i + 1], s) && id in run[i].objs
    ensures id in run[i + 1].objs && Clocked(run[i].objs[id], run[i + 1].objs[id], run[i].now)
    ensures run[i + 1].objs[id].updatedAt != run[i].objs[id].updatedAt
            || run[i + 1].objs[id].history.progressAt != run[i].objs[id].history.progressAt ==>
              && s.Run? && s.thread in run[i].threads
              && ClockedBy(run[i].objs[id], run[i + 1].objs[id], run[i].threads[s.thread].pc, id)
  {
    if s.Run? {
      var pc := run[i].threads[s.thread].pc;
      if Holding(pc).Some? && !pc.Unlock? {
        assert ThreadOk(run[i], s.thread) && Sound(run[i].objs[id], run[i].now) by { Reachable(run, i); }
        OwnerClocked(run[i], run[i + 1], s, pc, id);
      } else {
        FreeClocked(run[i], run[i + 1], s, pc, id);
      }
    }
  }
}
