/** Every step of the engine preserves the invariant. */
module TransferSteps {
  import opened Common
  import opened TransferModel
  import opened TransferEngine
  import opened TransferLocal
  import opened TransferInvariant

  // ----- The environment

  /** A step of the environment, seen by any thread identifier that is not in use. */
  lemma EnvironmentKeeps(w: World, w': World, s: Step, u: ThreadId)
    requires SessionsOk(w) && DetachesOk(w) && u !in w.threads
    requires Next(w, w', s) && (s.Tick? || s.Adjust? || s.Attach? || s.Forget? || s.Hangup?)
    ensures KeepsStill(w, w', u)
  {
    assert Still(w, w', u) by { EnvironmentStill(w, w', s, u); }
    DetachesStay(w, w');
  }

  lemma EnvironmentStill(w: World, w': World, s: Step, u: ThreadId)
    requires SessionsOk(w) && Next(w, w', s) && (s.Tick? || s.Adjust? || s.Attach? || s.Forget? || s.Hangup?)
    ensures Still(w, w', u) && w'.detached == w.detached && w'.threads == w.threads
  {
    if s.Attach? { AttachStill(w, w', s, u); }
  }

  lemma AttachStill(w: World, w': World, s: Step, u: ThreadId)
    requires SessionsOk(w) && Next(w, w', s) && s.Attach?
    ensures Still(w, w', u) && w'.detached == w.detached && w'.threads == w.threads
  {
  }

  lemma QuietEnvironment(w: World, w': World, s: Step)
    requires Inv(w) && Next(w, w', s) && (s.Tick? || s.Adjust? || s.Attach? || s.Forget? || s.Hangup?)
    ensures Inv(w')
  {
    var bound := Above(w.threads.Keys);
    assert KeepsStill(w, w', bound) by { EnvironmentKeeps(w, w', s, bound); }
    StillInv(w, w', bound);
  }

  lemma Above(used: set<nat>) returns (bound: nat)
    ensures forall u :: u in used ==> u < bound
  {
    if used == {} {
      bound := 0;
    } else {
      var u :| u in used;
      var b := Above(used - {u});
      bound := Max(b, u + 1);
      forall v | v in used ensures v < bound {
        if v != u { assert v in used - {u}; }
      }
    }
  }

  lemma SpawnKeeps(w: World, w': World, s: Step)
    requires SessionsOk(w) && DetachesOk(w) && Next(w, w', s) && s.Spawn?
    ensures KeepsStill(w, w', s.thread)
  {
    assert ThreadOk(w', s.thread);
    forall x | x in w'.detached ensures DetachedOk(w', x) { assert DetachedOk(w, x); }
  }

  /** What a local step leaves behind: the reservations of an ended transfer are released, and only peers
      with closed sessions are passed over. */
  ghost predicate EndsProperly(w: World, w': World, id: TransferId)
    requires id in w.objs && id in w'.objs
  {
    && (forall s :: s in w'.objs[id].history.unreachable ==> s in w.objs[id].history.unreachable || s in Closed(w))
    && (Final(w.objs[id].state) ==> Final(w'.objs[id].state))
    && w'.active == if Final(w'.objs[id].state) && !Final(w.objs[id].state)
        then ReleaseDevices(w.active, id, w.objs[id])
                    else w.active
  }

  lemma ReservationsKept(w: World, w': World, id: TransferId, u: ThreadId)
    requires ReservationsOk(w)
    requires Local(w, w', id, u) && SameIdentity(w.objs[id], w'.objs[id]) && EndsProperly(w, w', id)
    ensures ReservationsOk(w')
  {
  }

  lemma SessionsKept(w: World, w': World, id: TransferId, u: ThreadId)
    requires SessionsOk(w)
    requires Local(w, w', id, u) && SameIdentity(w.objs[id], w'.objs[id]) && EndsProperly(w, w', id)
    ensures SessionsOk(w')
  {
    forall x, s | x in w'.objs && s in w'.objs[x].history.unreachable
      ensures s in w'.sessions && w'.sessions[s].closed
    {
      if x != id { assert w'.objs[x] == w.objs[x]; }
    }
  }

  lemma TablesKept(w: World, w': World, id: TransferId, u: ThreadId)
    requires TableOk(w) && ReservationsOk(w) && SessionsOk(w)
    requires Local(w, w', id, u) && SameIdentity(w.objs[id], w'.objs[id]) && EndsProperly(w, w', id)
    ensures TableOk(w') && ReservationsOk(w') && SessionsOk(w')
  {
    assert ReservationsOk(w') by { ReservationsKept(w, w', id, u); }
    assert SessionsOk(w') by { SessionsKept(w, w', id, u); }
  }

  /** Timer callbacks and StartTransfer threads still do what they owe to live transfers. */
  lemma DutiesKept(w: World, w': World, id: TransferId, u: ThreadId)
    requires DutiesOk(w) && Local(w, w', id, u) && SameIdentity(w.objs[id], w'.objs[id])
    requires ExpirerOk(w', id) && StarterOk(w', id)
    requires u in w.threads ==>
               && (ExpiringFor(w.threads[u].pc).Some? ==> ExpiringFor(w.threads[u].pc) == Some(id))
               && (StartingFor(w.threads[u].pc).Some? ==> StartingFor(w.threads[u].pc) == Some(id))
    ensures DutiesOk(w')
  {
    forall i | i in w'.objs ensures ExpirerOk(w', i) && StarterOk(w', i) {
      assert ExpirerOk(w, i) && StarterOk(w, i);
    }
  }

  lemma DetachesKept(w: World, w': World, id: TransferId, u: ThreadId)
    requires DetachesOk(w) && Local(w, w', id, u) && SameIdentity(w.objs[id], w'.objs[id])
    requires forall s :: Refers(w'.objs[id], s) ==> Refers(w.objs[id], s)
    requires forall s :: s in Closed(w) && s in w.objs[id].history.unchecked && Refers(w'.objs[id], s) ==>
               s in w'.objs[id].history.unchecked
    requires u in w'.threads && u in w.threads ==>
               && w'.threads[u].pending == w.threads[u].pending && w'.threads[u].detaching == w.threads[u].detaching
               && (FailingFor(w'.threads[u].pc) == FailingFor(w.threads[u].pc)
                   || FailingFor(w.threads[u].pc) == None
                   || (FailingFor(w.threads[u].pc) == Some(id) && forall s :: !Refers(w'.objs[id], s)))
    requires u !in w.threads && u in w'.threads ==> w'.threads[u].detaching == None
    ensures DetachesOk(w')
  {
    forall v | v in w'.threads ensures DetachOk(w', w'.threads[v]) {
      if v in w.threads { assert DetachOk(w, w.threads[v]); }
    }
    forall x | x in w'.detached ensures DetachedOk(w', x) { assert DetachedOk(w, x); }
  }

  /** A step that leaves the transfer's state, peers and reservations alone. */
  ghost predicate Calm(w: World, w': World, id: TransferId, u: ThreadId) {
    && Local(w, w', id, u) && SameIdentity(w.objs[id], w'.objs[id]) && w'.active == w.active
    && var t, t' := w.objs[id], w'.objs[id];
       && t'.state == t.state && t'.source == t.source && t'.target == t.target
       && t'.history.unchecked == t.history.unchecked && t'.history.unreachable == t.history.unreachable
       && (u in w.threads ==>
             var pc := w.threads[u].pc;
             && (ExpiringFor(pc).Some? ==> ExpiringFor(pc) == Some(id))
             && (StartingFor(pc).Some? ==> StartingFor(pc) == Some(id)))
       && (u in w'.threads && u in w.threads ==>
             var th, th' := w.threads[u], w'.threads[u];
             && th'.pending == th.pending && th'.detaching == th.detaching
             && (FailingFor(th'.pc) == FailingFor(th.pc) || FailingFor(th.pc) == None))
       && (u !in w.threads && u in w'.threads ==> w'.threads[u].detaching == None)
  }

  /** The three lemmas above for a step that leaves the transfer's state and peers alone. */
  lemma RestKept(w: World, w': World, id: TransferId, u: ThreadId)
    requires TableOk(w) && ReservationsOk(w) && SessionsOk(w) && DutiesOk(w) && DetachesOk(w)
    requires Calm(w, w', id, u) && ExpirerOk(w', id) && StarterOk(w', id)
    ensures TableOk(w') && ReservationsOk(w') && SessionsOk(w') && DutiesOk(w') && DetachesOk(w')
  {
    assert TableOk(w') && ReservationsOk(w') && SessionsOk(w') by { TablesKept(w, w', id, u); }
    assert DutiesOk(w') by { DutiesKept(w, w', id, u); }
    assert DetachesOk(w') by { DetachesKept(w, w', id, u); }
  }

  lemma FireLocal(t: Transfer, u: ThreadId, now: Clock)
    requires Sound(t, now) && t.timer.Some?
    ensures var t' := t.(timer := None, history := t.history.(expirer := Some(u)));
            Fires(t, t') && Sound(t', now) && (Quiet(t) ==> Quiet(t'))
  {
    assert PhaseOf(t.(timer := None, history := t.history.(expirer := Some(u)))) == PhaseOf(t);
  }

  lemma FireCore(w: World, w': World, s: Step)
    requires TransfersSound(w) && RelaysOk(w) && ThreadsOk(w) && Next(w, w', s) && s.Fire?
    ensures TransfersSound(w') && RelaysOk(w') && ThreadsOk(w')
  {
    var id, u := s.id, s.thread;
    assert Sound(w.objs[id], w.now) && RelayOk(w.objs[id], id, w.threads);
    FireLocal(w.objs[id], u, w.now);
    assert RelayOk(w'.objs[id], id, w'.threads);
    LocalCore(w, w', id, u);
  }

  lemma FireCalm(w: World, w': World, s: Step)
    requires Next(w, w', s) && s.Fire?
    ensures Calm(w, w', s.id, s.thread)
  {
  }

  lemma FireDuties(w: World, w': World, s: Step)
    requires Next(w, w', s) && s.Fire? && StarterOk(w, s.id)
    ensures s.id in w'.objs && ExpirerOk(w', s.id) && StarterOk(w', s.id)
  {
  }

  // ----- Taking and giving back relayMu

  lemma RelayIrrelevant(t: Transfer, t': Transfer, now: Clock)
    requires t' == t.(relay := t'.relay)
    ensures PhaseOf(t') == PhaseOf(t) && Quiet(t') == Quiet(t) && Sound(t', now) == Sound(t, now)
  {
  }

  /** Nobody holds a free relayMu, and nobody but its owner an owned one. */
  lemma OneHolder(w: World, id: TransferId, u: ThreadId)
    requires ThreadsOk(w) && id in w.objs && (w.objs[id].relay == None || w.objs[id].relay == Some(u))
    ensures forall v :: v in w.threads && Holding(w.threads[v].pc) == Some(id) ==> v == u && w.objs[id].relay == Some(u)
  {
    forall v | v in w.threads && Holding(w.threads[v].pc) == Some(id) ensures v == u && w.objs[id].relay == Some(u) {
      assert ThreadOk(w, v);
    }
  }

  lemma AcquireCore(w: World, w': World, u: ThreadId, id: TransferId, op: Op)
    requires TransfersSound(w) && RelaysOk(w) && ThreadsOk(w)
    requires u in w.threads && w.threads[u].pc == WantRelay(id, op) && AcquireNext(w, w', u, id, op)
    ensures TransfersSound(w') && RelaysOk(w') && ThreadsOk(w')
  {
    var t, t' := w.objs[id], w'.objs[id];
    assert ThreadOk(w, u) && Sound(t, w.now) && RelayOk(t, id, w.threads);
    RelayIrrelevant(t, t', w.now);
    OneHolder(w, id, u);
    LocalCore(w, w', id, u);
  }

  lemma AcquireCalm(w: World, w': World, u: ThreadId, id: TransferId, op: Op)
    requires u in w.threads && w.threads[u].pc == WantRelay(id, op) && AcquireNext(w, w', u, id, op)
    ensures Calm(w, w', id, u)
  {
  }

  lemma AcquireDuties(w: World, w': World, u: ThreadId, id: TransferId, op: Op)
    requires u in w.threads && w.threads[u].pc == WantRelay(id, op) && AcquireNext(w, w', u, id, op)
    requires id in w.objs && ExpirerOk(w, id) && StarterOk(w, id)
    ensures id in w'.objs && ExpirerOk(w', id) && StarterOk(w', id)
  {
  }

  lemma UnlockCore(w: World, w': World, u: ThreadId, id: TransferId)
    requires TransfersSound(w) && RelaysOk(w) && ThreadsOk(w)
    requires u in w.threads && w.threads[u].pc == Unlock(id) && UnlockNext(w, w', u, id)
    ensures TransfersSound(w') && RelaysOk(w') && ThreadsOk(w')
  {
    var t, t' := w.objs[id], w'.objs[id];
    assert ThreadOk(w, u) && Sound(t, w.now);
    RelayIrrelevant(t, t', w.now);
    OneHolder(w, id, u);
    LocalCore(w, w', id, u);
  }

  lemma UnlockCalm(w: World, w': World, u: ThreadId, id: TransferId)
    requires u in w.threads && w.threads[u].pc == Unlock(id) && UnlockNext(w, w', u, id)
    ensures Calm(w, w', id, u)
  {
  }

  lemma UnlockDuties(w: World, w': World, u: ThreadId, id: TransferId)
    requires u in w.threads && w.threads[u].pc == Unlock(id) && UnlockNext(w, w', u, id)
    requires id in w.objs && ExpirerOk(w, id) && StarterOk(w, id)
    ensures id in w'.objs && ExpirerOk(w', id) && StarterOk(w', id)
  {
  }

  // ----- The owner of relayMu

  /** What a step of the owner does to the fields that other threads' obligations mention. */
  ghost predicate Footprint(t: Transfer, pc: Pc, t1: Transfer, pc1: Pc, u: ThreadId, closed: set<SessionId>) {
    var h, h1 := t.history, t1.history;
    && SameIdentity(t, t1) && t1.relay == t.relay && Holding(pc1) == Holding(pc)
    && (Final(t.state) ==> Final(t1.state))
    && (t1.source == t.source || t1.source == None) && (t1.target == t.target || t1.target == None)
    && (h1.unchecked != h.unchecked ==> h.starter == u)
    && (forall s :: s in closed && s in h.unchecked ==> s in h1.unchecked)
    && (forall s :: s in h1.unreachable ==> s in h.unreachable || s in closed)
    && (h1.expirer != h.expirer ==> h.expirer == Some(u) && h1.expirer == None)
    && (!Final(t1.state) && ExpiringFor(pc).Some? && h1.expirer == Some(u) ==> ExpiringFor(pc1) == ExpiringFor(pc))
    && (!Final(t1.state) && StartingFor(pc).Some? && h1.unchecked != {} ==> StartingFor(pc1) == StartingFor(pc))
    && (FailingFor(pc).Some? ==> Final(t1.state))
  }

  lemma ReadyFootprint(t: Transfer, pc: Pc, u: ThreadId, listed: bool, closed: set<SessionId>, now: Clock)
    requires pc.Region? && (pc.op.SourceReadyOp? || pc.op.TargetReadyOp? || pc.op.SourceFinishOp?)
    requires Sound(t, now) && HolderOk(t, pc, u, now)
    ensures var r := RegionStep(t, pc.id, pc.op, listed, now); Footprint(t, pc, r.0, r.1, u, closed)
  {
  }

  lemma EndFootprint(t: Transfer, pc: Pc, u: ThreadId, listed: bool, closed: set<SessionId>, now: Clock)
    requires pc.Region? && (pc.op.CancelOp? || pc.op.FailOp? || pc.op.ExpireOp?)
    requires Sound(t, now) && HolderOk(t, pc, u, now) && (!Final(t.state) ==> listed)
    ensures var r := RegionStep(t, pc.id, pc.op, listed, now); Footprint(t, pc, r.0, r.1, u, closed)
  {
  }

  lemma RegionFootprint(t: Transfer, pc: Pc, u: ThreadId, listed: bool, closed: set<SessionId>, now: Clock)
    requires pc.Region? && Sound(t, now) && HolderOk(t, pc, u, now)
    requires !Final(t.state) ==> listed
    ensures var r := RegionStep(t, pc.id, pc.op, listed, now); Footprint(t, pc, r.0, r.1, u, closed)
  {
    if pc.op.SourceReadyOp? || pc.op.TargetReadyOp? || pc.op.SourceFinishOp? {
      ReadyFootprint(t, pc, u, listed, closed, now);
    } else if pc.op.CancelOp? || pc.op.FailOp? || pc.op.ExpireOp? {
      EndFootprint(t, pc, u, listed, closed, now);
    }
  }

  lemma MissedFootprint(t: Transfer, pc: Pc, u: ThreadId, closed: set<SessionId>, now: Clock)
    requires pc.Hand? && pc.to in closed && HolderOk(t, pc, u, now)
    ensures Footprint(t, pc, Missed(t, pc.to), FailNow(pc.id, false), u, closed)
  {
  }

  lemma HandFootprint(t: Transfer, pc: Pc, u: ThreadId, listed: bool, closed: set<SessionId>, ok: bool, now: Clock)
    requires pc.Hand? && Sound(t, now) && HolderOk(t, pc, u, now)
    ensures var r := HolderStep(t, pc, listed, closed, ok, now); Footprint(t, pc, r.0, r.1, u, closed)
  {
    if pc.to in closed { MissedFootprint(t, pc, u, closed, now); }
  }

  lemma TransportFootprint(t: Transfer, pc: Pc, u: ThreadId, listed: bool, closed: set<SessionId>, ok: bool, now: Clock)
    requires pc.InTransport? && Sound(t, now) && HolderOk(t, pc, u, now)
    ensures var r := HolderStep(t, pc, listed, closed, ok, now); Footprint(t, pc, r.0, r.1, u, closed)
  {
  }

  lemma TellFootprint(t: Transfer, pc: Pc, u: ThreadId, listed: bool, closed: set<SessionId>, ok: bool, now: Clock)
    requires pc.TellCancel? && HolderOk(t, pc, u, now)
    ensures var r := HolderStep(t, pc, listed, closed, ok, now); Footprint(t, pc, r.0, r.1, u, closed)
  {
  }

  lemma ReturnFootprint(t: Transfer, pc: Pc, u: ThreadId, listed: bool, closed: set<SessionId>, ok: bool, now: Clock)
    requires pc.CancelInTransport? && HolderOk(t, pc, u, now)
    ensures var r := HolderStep(t, pc, listed, closed, ok, now); Footprint(t, pc, r.0, r.1, u, closed)
  {
  }

  lemma EndingFootprint(t: Transfer, pc: Pc, u: ThreadId, listed: bool, closed: set<SessionId>, ok: bool, now: Clock)
    requires (pc.ChunkSent? || pc.FailNow?) && Sound(t, now) && HolderOk(t, pc, u, now) && (!Final(t.state) ==> listed)
    ensures var r := HolderStep(t, pc, listed, closed, ok, now); Footprint(t, pc, r.0, r.1, u, closed)
  {
  }

  lemma MessageFootprint(t: Transfer, pc: Pc, u: ThreadId, listed: bool, closed: set<SessionId>, ok: bool, now: Clock)
    requires pc.Hand? || pc.InTransport? || pc.TellCancel? || pc.CancelInTransport?
    requires Sound(t, now) && HolderOk(t, pc, u, now)
    ensures var r := HolderStep(t, pc, listed, closed, ok, now); Footprint(t, pc, r.0, r.1, u, closed)
  {
    if pc.Hand? {
      HandFootprint(t, pc, u, listed, closed, ok, now);
    } else if pc.InTransport? {
      TransportFootprint(t, pc, u, listed, closed, ok, now);
    } else if pc.TellCancel? {
      TellFootprint(t, pc, u, listed, closed, ok, now);
    } else {
      ReturnFootprint(t, pc, u, listed, closed, ok, now);
    }
  }

  lemma HolderFootprint(t: Transfer, pc: Pc, u: ThreadId, listed: bool, closed: set<SessionId>, ok: bool, now: Clock)
    requires Holding(pc).Some? && !pc.Unlock? && Sound(t, now) && HolderOk(t, pc, u, now)
    requires !Final(t.state) ==> listed
    ensures var r := HolderStep(t, pc, listed, closed, ok, now); Footprint(t, pc, r.0, r.1, u, closed)
  {
    if pc.Region? {
      RegionFootprint(t, pc, u, listed, closed, now);
    } else if pc.ChunkSent? || pc.FailNow? {
      EndingFootprint(t, pc, u, listed, closed, ok, now);
    } else {
      MessageFootprint(t, pc, u, listed, closed, ok, now);
    }
  }

  /** A step of the owner, with its local consequences spelt out. */
  ghost predicate OwnerStep(w: World, w': World, u: ThreadId, id: TransferId) {
    && u in w.threads && u in w'.threads && Local(w, w', id, u)
    && Holding(w.threads[u].pc) == Some(id)
    && w.objs[id].relay == Some(u)
    && Footprint(w.objs[id], w.threads[u].pc, w'.objs[id], w'.threads[u].pc, u, Closed(w))
    && w'.threads[u].pending == w.threads[u].pending && w'.threads[u].detaching == w.threads[u].detaching
    && w'.threads[u].starting == w.threads[u].starting
    && EndsProperly(w, w', id)
    && Sound(w'.objs[id], w'.now) && HolderOk(w'.objs[id], w'.threads[u].pc, u, w'.now)
  }

  lemma HolderIsOwner(w: World, w': World, u: ThreadId, id: TransferId, ok: bool)
    requires TransfersSound(w) && RelaysOk(w) && ThreadsOk(w) && TableOk(w)
    requires u in w.threads && Holding(w.threads[u].pc) == Some(id) && !w.threads[u].pc.Unlock? && id in w.objs
    requires HolderNext(w, w', u, id, ok)
    ensures OwnerStep(w, w', u, id)
  {
    var t, pc := w.objs[id], w.threads[u].pc;
    assert ThreadOk(w, u) && Sound(t, w.now);
    HolderLocal(t, pc, u, id in w.table, Closed(w), ok, w.now);
    HolderFootprint(t, pc, u, id in w.table, Closed(w), ok, w.now);
  }

  lemma OwnerCore(w: World, w': World, u: ThreadId, id: TransferId)
    requires TransfersSound(w) && RelaysOk(w) && ThreadsOk(w) && OwnerStep(w, w', u, id)
    ensures TransfersSound(w') && RelaysOk(w') && ThreadsOk(w')
  {
    OneHolder(w, id, u);
    forall v | v != u && v in w.threads && w.threads[v].pc == WantRelay(id, StartOp)
      ensures w'.objs[id].history.unchecked == w.objs[id].history.unchecked
    {
      assert ThreadOk(w, v);
    }
    assert RelayOk(w'.objs[id], id, w'.threads);
    assert ThreadOk(w', u);
    LocalCore(w, w', id, u);
  }

  lemma OwnerDuties(w: World, w': World, u: ThreadId, id: TransferId)
    requires DutiesOk(w) && OwnerStep(w, w', u, id)
    ensures DutiesOk(w')
  {
    assert ExpirerOk(w, id) && StarterOk(w, id);
    assert ExpirerOk(w', id) && StarterOk(w', id);
    DutiesKept(w, w', id, u);
  }

  lemma OwnerDetaches(w: World, w': World, u: ThreadId, id: TransferId)
    requires DetachesOk(w) && OwnerStep(w, w', u, id)
    ensures DetachesOk(w')
  {
    assert Final(w'.objs[id].state) ==> forall s :: !Refers(w'.objs[id], s);
    DetachesKept(w, w', id, u);
  }

  lemma OwnerInv(w: World, w': World, u: ThreadId, id: TransferId, ok: bool)
    requires Inv(w)
    requires u in w.threads && Holding(w.threads[u].pc) == Some(id) && !w.threads[u].pc.Unlock? && id in w.objs
    requires HolderNext(w, w', u, id, ok)
    ensures Inv(w')
  {
    assert OwnerStep(w, w', u, id) by { HolderIsOwner(w, w', u, id, ok); }
    assert TransfersSound(w') && RelaysOk(w') && ThreadsOk(w') by { OwnerCore(w, w', u, id); }
    assert TableOk(w') && ReservationsOk(w') && SessionsOk(w') by { TablesKept(w, w', id, u); }
    assert DutiesOk(w') by { OwnerDuties(w, w', u, id); }
    assert DetachesOk(w') by { OwnerDetaches(w, w', u, id); }
  }

  // ----- Target finish

  lemma CompleteLocal(t: Transfer, size: nat, raw: string, now: Clock)
    requires Sound(t, now) && t.state == Verifying && size == t.size && Normalise(raw) == t.digest
    ensures Sound(Complete(t, size, raw, now), now) && Completes(t, Complete(t, size, raw, now))
    ensures Quiet(t) ==> Quiet(Complete(t, size, raw, now))
  {
    assert PhaseOf(Complete(t, size, raw, now)) == PhaseOf(t);
  }

  lemma AcceptCore(w: World, w': World, u: ThreadId, id: TransferId, size: nat, raw: string)
    requires TransfersSound(w) && RelaysOk(w) && ThreadsOk(w)
    requires u in w.threads && Holding(w.threads[u].pc) == None && id in w.objs
    requires w.objs[id].state == Verifying && size == w.objs[id].size && Normalise(raw) == w.objs[id].digest
    requires w' == At(Update(w, id, Complete(w.objs[id], size, raw, w.now)), u, NextFailure).(
                     active := ReleaseDevices(w.active, id, w.objs[id]))
    ensures TransfersSound(w') && RelaysOk(w') && ThreadsOk(w')
  {
    assert Sound(w.objs[id], w.now) && RelayOk(w.objs[id], id, w.threads);
    CompleteLocal(w.objs[id], size, raw, w.now);
    assert ThreadOk(w', u);
    LocalCore(w, w', id, u);
  }

  lemma AcceptLocal(w: World, w': World, u: ThreadId, id: TransferId, size: nat, raw: string)
    requires u in w.threads && id in w.objs && w.objs[id].state == Verifying
    requires w' == At(Update(w, id, Complete(w.objs[id], size, raw, w.now)), u, NextFailure).(
                     active := ReleaseDevices(w.active, id, w.objs[id]))
    ensures Local(w, w', id, u) && SameIdentity(w.objs[id], w'.objs[id]) && EndsProperly(w, w', id)
  {
  }

  lemma AcceptTables(w: World, w': World, u: ThreadId, id: TransferId, size: nat, raw: string)
    requires TableOk(w) && ReservationsOk(w) && SessionsOk(w)
    requires u in w.threads && w.threads[u].pc.TargetFinish? && id in w.objs && w.objs[id].state == Verifying
    requires w' == At(Update(w, id, Complete(w.objs[id], size, raw, w.now)), u, NextFailure).(
                     active := ReleaseDevices(w.active, id, w.objs[id]))
    ensures TableOk(w') && ReservationsOk(w') && SessionsOk(w')
  {
    AcceptLocal(w, w', u, id, size, raw);
    TablesKept(w, w', id, u);
  }

  lemma AcceptDuties(w: World, w': World, u: ThreadId, id: TransferId, size: nat, raw: string)
    requires DutiesOk(w) && DetachesOk(w)
    requires u in w.threads && w.threads[u].pc.TargetFinish? && id in w.objs && w.objs[id].state == Verifying
    requires w' == At(Update(w, id, Complete(w.objs[id], size, raw, w.now)), u, NextFailure).(
                     active := ReleaseDevices(w.active, id, w.objs[id]))
    ensures DutiesOk(w') && DetachesOk(w')
  {
    assert Local(w, w', id, u) && SameIdentity(w.objs[id], w'.objs[id]);
    assert DutiesOk(w') by { DutiesKept(w, w', id, u); }
    assert DetachesOk(w') by { DetachesKept(w, w', id, u); }
  }
}
