/** The invariant of the whole engine and its preservation by every step. */
module TransferInvariant {
  import opened Common
  import opened TransferModel
  import opened TransferEngine
  import opened TransferLocal

  // ----- Transfers, locks and threads

  ghost predicate TransfersSound(w: World) {
    forall id {:trigger Sound(w.objs[id], w.now)} :: id in w.objs ==> Sound(w.objs[id], w.now)
  }

  ghost predicate RelayOk(t: Transfer, id: TransferId, threads: map<ThreadId, Thread>) {
    match t.relay
    case None => Quiet(t)
    case Some(u) => u in threads && Holding(threads[u].pc) == Some(id)
  }

  /** relayMu is a mutex: free and the transfer at rest, or owned by a thread at a point where it owns it. */
  ghost predicate RelaysOk(w: World) {
    forall id {:trigger RelayOk(w.objs[id], id, w.threads)} :: id in w.objs ==> RelayOk(w.objs[id], id, w.threads)
  }

  /** What a thread that owns no relayMu knows. */
  ghost predicate WaiterOk(w: World, pc: Pc, u: ThreadId) {
    match pc
    case ResolveSource(a, b) => a != b
    case ResolveTarget(a, b, src) => a != b && src in w.sessions && w.sessions[src].device == a
    case Publish(a, b, src, tgt, createdAt) =>
      && a != b && Later(createdAt, w.now)
      && src in w.sessions && w.sessions[src].device == a
      && tgt in w.sessions && w.sessions[tgt].device == b
    case Lookup(id, op) =>
      && op != StartOp
      && (op == ExpireOp ==> id in w.objs)
      && (op.ExpireOp? && id in w.objs ==> w.objs[id].history.expirer == Some(u))
      && (op.SourceReadyOp? ==> op.size < WORD)
      && (op.ChunkOp? ==> |op.payload| <= MAX_PAYLOAD)
      && (op.SourceFinishOp? ==> ValidDigest(Normalise(op.raw)))
    case WantRelay(id, op) => id in w.objs && OpOk(w.objs[id], op, u)
    case AwaitReady(id) => id in w.objs
    case Unregister(s) => s in w.sessions
    case CloseSession(s) => s in w.sessions
    case Scan(s) => s in w.sessions && w.sessions[s].closed
    case _ => true
  }

  ghost predicate ThreadOk(w: World, u: ThreadId)
    requires u in w.threads
  {
    var pc := w.threads[u].pc;
    match Holding(pc)
    case Some(id) => id in w.objs && HolderOk(w.objs[id], pc, u, w.now)
    case None => WaiterOk(w, pc, u)
  }

  ghost predicate ThreadsOk(w: World) {
    forall u {:trigger ThreadOk(w, u)} :: u in w.threads ==> ThreadOk(w, u)
  }

  // ----- Tables

  ghost predicate TableOk(w: World) {
    && w.table <= w.objs.Keys
    && (forall id :: id in w.objs && !Final(w.objs[id].state) ==> id in w.table)
    && |w.table| <= Max(MAX_HISTORY, w.peak)
  }

  /** A device is reserved for a transfer exactly when that transfer is live and uses the device. */
  ghost predicate ReservationsOk(w: World) {
    && (forall d :: d in w.active ==>
          && w.active[d] in w.objs && !Final(w.objs[w.active[d]].state)
          && (d == w.objs[w.active[d]].sourceDevice || d == w.objs[w.active[d]].targetDevice))
    && (forall id :: id in w.objs && !Final(w.objs[id].state) ==>
          && w.objs[id].sourceDevice in w.active && w.active[w.objs[id].sourceDevice] == id
          && w.objs[id].targetDevice in w.active && w.active[w.objs[id].targetDevice] == id)
  }

  ghost predicate SessionsOk(w: World) {
    && (forall d :: d in w.devices ==> w.devices[d] in w.sessions && w.sessions[w.devices[d]].device == d)
    && (forall id :: id in w.objs ==>
          && w.objs[id].history.src in w.sessions
              && w.sessions[w.objs[id].history.src].device == w.objs[id].sourceDevice
          && w.objs[id].history.tgt in w.sessions
              && w.sessions[w.objs[id].history.tgt].device == w.objs[id].targetDevice)
    && (forall id, s :: id in w.objs && s in w.objs[id].history.unreachable ==> s in w.sessions && w.sessions[s].closed)
  }

  // ----- Obligations of particular threads

  /** The transfer on which an expire callback at `pc` has not yet decided. */
  function ExpiringFor(pc: Pc): Option<TransferId> {
    match pc
    case Lookup(id, op) => if op.ExpireOp? then Some(id) else None
    case WantRelay(id, op) => if op.ExpireOp? then Some(id) else None
    case Region(id, op) => if op.ExpireOp? then Some(id) else None
    case FailNow(id, expired) => if expired then Some(id) else None
    case _ => None
  }

  /** A callback that has fired for a live transfer is on its way. */
  ghost predicate ExpirerOk(w: World, id: TransferId)
    requires id in w.objs
  {
    !Final(w.objs[id].state) && w.objs[id].history.expirer.Some? ==>
      var u := w.objs[id].history.expirer.value;
      u in w.threads && ExpiringFor(w.threads[u].pc) == Some(id)
  }

  /** The transfer whose StartTransfer is in its relay section at `pc`, up to the point where both sends
      have gone out or the transfer has failed. */
  function StartingFor(pc: Pc): Option<TransferId> {
    match pc
    case WantRelay(id, op) => if op.StartOp? then Some(id) else None
    case Region(id, op) => if op.StartOp? then Some(id) else None
    case Hand(id, _, message) => if message.TargetStart? || message.SourceStart? then Some(id) else None
    case InTransport(id, _, message) => if message.TargetStart? then Some(id) else None
    case FailNow(id, _) => Some(id)
    case _ => None
  }

  /** StartTransfer of `id` has not finished its relay section. */
  ghost predicate StartInProgress(w: World, id: TransferId)
    requires id in w.objs
  {
    var u := w.objs[id].history.starter;
    u in w.threads && w.threads[u].starting && StartingFor(w.threads[u].pc) == Some(id)
  }

  ghost predicate StarterOk(w: World, id: TransferId)
    requires id in w.objs
  {
    !Final(w.objs[id].state) && w.objs[id].history.unchecked != {} ==>
      StartInProgress(w, id)
  }

  ghost predicate DutiesOk(w: World) {
    && (forall id {:trigger ExpirerOk(w, id)} :: id in w.objs ==> ExpirerOk(w, id))
    && (forall id {:trigger StarterOk(w, id)} :: id in w.objs ==> StarterOk(w, id))
  }

  ghost predicate Refers(t: Transfer, s: SessionId) {
    t.source == Some(s) || t.target == Some(s)
  }

  /** The transfer that failTransfer, at `pc`, has still to fail. */
  function FailingFor(pc: Pc): Option<TransferId> {
    match pc
    case Lookup(id, op) => if op.FailOp? then Some(id) else None
    case WantRelay(id, op) => if op.FailOp? then Some(id) else None
    case Region(id, op) => if op.FailOp? then Some(id) else None
    case _ => None
  }

  /** The transfers a detaching thread has still to fail, the current one included. */
  ghost predicate Owes(th: Thread, id: TransferId) {
    id in th.pending || FailingFor(th.pc) == Some(id)
  }

  ghost predicate DetachOk(w: World, th: Thread) {
    th.detaching.Some? ==>
      var s := th.detaching.value;
      && s in w.sessions && w.sessions[s].closed
      && forall id :: id in w.objs && Refers(w.objs[id], s) ==> s in w.objs[id].history.unchecked || Owes(th, id)
  }

  ghost predicate DetachedOk(w: World, s: SessionId) {
    && s in w.sessions && w.sessions[s].closed
    && forall id :: id in w.objs && Refers(w.objs[id], s) ==> s in w.objs[id].history.unchecked
  }

  ghost predicate DetachesOk(w: World) {
    && (forall u {:trigger DetachOk(w, w.threads[u])} :: u in w.threads ==> DetachOk(w, w.threads[u]))
    && (forall s {:trigger DetachedOk(w, s)} :: s in w.detached ==> DetachedOk(w, s))
  }

  ghost predicate Inv(w: World) {
    && TransfersSound(w) && RelaysOk(w) && ThreadsOk(w)
    && TableOk(w) && ReservationsOk(w) && SessionsOk(w)
    && DutiesOk(w) && DetachesOk(w)
  }

  // ----- Steps that change one transfer and one thread

  /** `w'` differs from `w` in transfer `id`, thread `u` and the reservations only. */
  ghost predicate Local(w: World, w': World, id: TransferId, u: ThreadId) {
    && id in w.objs && id in w'.objs
    && w'.objs == w.objs[id := w'.objs[id]]
    && (forall v :: v != u ==>
        (v in w'.threads <==> v in w.threads) && (v in w.threads ==> w'.threads[v] == w.threads[v]))
    && w'.table == w.table && w'.devices == w.devices && w'.sessions == w.sessions
    && w'.now == w.now && w'.peak == w.peak && w'.detached == w.detached
  }

  /** Facts about a transfer that no step ever changes. */
  ghost predicate SameIdentity(t: Transfer, t': Transfer) {
    && t'.sourceDevice == t.sourceDevice && t'.targetDevice == t.targetDevice
    && t'.history.src == t.history.src && t'.history.tgt == t.history.tgt
    && t'.history.starter == t.history.starter
    && t'.history.unchecked <= t.history.unchecked
  }

  /** The rely/guarantee core: a local step is safe for the world if the acting thread keeps its own
      transfer sound and, when somebody else owns relayMu, only interferes in the permitted way. */
  lemma LocalCore(w: World, w': World, id: TransferId, u: ThreadId)
    requires TransfersSound(w) && RelaysOk(w) && ThreadsOk(w) && Local(w, w', id, u)
    requires Sound(w'.objs[id], w.now) && SameIdentity(w.objs[id], w'.objs[id])
    requires RelayOk(w'.objs[id], id, w'.threads)
    requires u in w'.threads ==> ThreadOk(w', u)
    requires u in w.threads && Holding(w.threads[u].pc).Some? ==> Holding(w.threads[u].pc) == Some(id)
    requires forall v :: v != u && v in w.threads && Holding(w.threads[v].pc) == Some(id) ==>
             Interferes(w.objs[id], w'.objs[id])
    requires forall v :: v != u && v in w.threads && w.threads[v].pc == WantRelay(id, StartOp) ==>
               w'.objs[id].history.unchecked == w.objs[id].history.unchecked
    requires forall v :: v != u && w.objs[id].history.expirer == Some(v) ==> w'.objs[id].history.expirer == Some(v)
    ensures TransfersSound(w') && RelaysOk(w') && ThreadsOk(w')
  {
    forall i | i in w'.objs ensures RelayOk(w'.objs[i], i, w'.threads) {
      if i != id { assert RelayOk(w.objs[i], i, w.threads); }
    }
    forall v | v in w'.threads ensures ThreadOk(w', v) {
      if v != u {
        assert ThreadOk(w, v);
        if Holding(w.threads[v].pc) == Some(id) {
          HolderStable(w.objs[id], w'.objs[id], w.threads[v].pc, v, w.now, w.now);
        }
      }
    }
  }

  // ----- Steps that change no transfer

  ghost predicate SessionsGrow(w: World, w': World) {
    forall s :: s in w.sessions ==>
      s in w'.sessions && w'.sessions[s].device == w.sessions[s].device
          && (w.sessions[s].closed ==> w'.sessions[s].closed)
  }

  /** `w'` differs from `w` in thread `u`, the clock, the registry and the sessions. */
  ghost predicate Still(w: World, w': World, u: ThreadId) {
    && w'.objs == w.objs && w'.table == w.table && w'.active == w.active && w'.peak == w.peak
    && (forall v :: v != u ==>
        (v in w'.threads <==> v in w.threads) && (v in w.threads ==> w'.threads[v] == w.threads[v]))
    && Later(w.now, w'.now) && SessionsGrow(w, w')
    && (forall d :: d in w'.devices ==> w'.devices[d] in w'.sessions && w'.sessions[w'.devices[d]].device == d)
  }

  ghost predicate IsLive(w: World, id: Option<TransferId>) {
    id.Some? && id.value in w.objs && !Final(w.objs[id.value].state)
  }

  /** Thread `u` keeps every obligation it has as a timer callback or as StartTransfer. */
  ghost predicate KeepsDuties(w: World, w': World, u: ThreadId) {
    u in w.threads ==>
      var pc := w.threads[u].pc;
      && (IsLive(w, ExpiringFor(pc)) ==> u in w'.threads && ExpiringFor(w'.threads[u].pc) == ExpiringFor(pc))
      && (IsLive(w, StartingFor(pc)) ==>
            u in w'.threads && StartingFor(w'.threads[u].pc) == StartingFor(pc)
            && w'.threads[u].starting == w.threads[u].starting)
  }

  /** All that thread `u` has to show about a step that changes no transfer. */
  ghost predicate KeepsStill(w: World, w': World, u: ThreadId) {
    && Still(w, w', u) && KeepsDuties(w, w', u)
    && (u in w.threads ==> Holding(w.threads[u].pc) == None)
    && (u in w'.threads ==> ThreadOk(w', u) && DetachOk(w', w'.threads[u]))
    && forall s {:trigger DetachedOk(w', s)} :: s in w'.detached ==> DetachedOk(w', s)
  }

  lemma StillCore(w: World, w': World, u: ThreadId)
    requires TransfersSound(w) && RelaysOk(w) && ThreadsOk(w) && KeepsStill(w, w', u)
    ensures TransfersSound(w') && RelaysOk(w') && ThreadsOk(w')
  {
    forall v | v in w'.threads ensures ThreadOk(w', v) {
      if v != u {
        assert ThreadOk(w, v);
        match Holding(w.threads[v].pc)
        case Some(id) => HolderStable(w.objs[id], w.objs[id], w.threads[v].pc, v, w.now, w'.now);
        case None =>
      }
    }
    forall id | id in w'.objs ensures RelayOk(w'.objs[id], id, w'.threads) && Sound(w'.objs[id], w'.now) {
      assert RelayOk(w.objs[id], id, w.threads) && Sound(w.objs[id], w.now);
    }
  }

  lemma StillTables(w: World, w': World, u: ThreadId)
    requires TableOk(w) && ReservationsOk(w) && SessionsOk(w) && Still(w, w', u)
    ensures TableOk(w') && ReservationsOk(w') && SessionsOk(w')
  {
  }

  lemma StillDuties(w: World, w': World, u: ThreadId)
    requires DutiesOk(w) && DetachesOk(w) && KeepsStill(w, w', u)
    ensures DutiesOk(w') && DetachesOk(w')
  {
    forall id | id in w'.objs ensures ExpirerOk(w', id) && StarterOk(w', id) {
      assert ExpirerOk(w, id) && StarterOk(w, id);
    }
    forall v | v in w'.threads ensures DetachOk(w', w'.threads[v]) {
      if v != u { assert DetachOk(w, w.threads[v]); }
    }
  }

  lemma StillInv(w: World, w': World, u: ThreadId)
    requires Inv(w) && KeepsStill(w, w', u)
    ensures Inv(w')
  {
    assert TransfersSound(w') && RelaysOk(w') && ThreadsOk(w') by { StillCore(w, w', u); }
    assert TableOk(w') && ReservationsOk(w') && SessionsOk(w') by { StillTables(w, w', u); }
    assert DutiesOk(w') && DetachesOk(w') by { StillDuties(w, w', u); }
  }

  /** Obligations of detaches outlive steps that change no transfer. */
  lemma DetachesStay(w: World, w': World)
    requires DetachesOk(w) && w'.objs == w.objs && w'.detached == w.detached && SessionsGrow(w, w')
    ensures forall s {:trigger DetachedOk(w', s)} :: s in w'.detached ==> DetachedOk(w', s)
    ensures forall th {:trigger DetachOk(w', th)} :: DetachOk(w, th) ==> DetachOk(w', th)
  {
    forall s | s in w'.detached ensures DetachedOk(w', s) { assert DetachedOk(w, s); }
  }

  /** A step of thread `u` outside relayMu that moves it to `pc` and changes nothing else. */
  lemma MoveKeeps(w: World, w': World, u: ThreadId, pc: Pc)
    requires TransfersSound(w) && SessionsOk(w) && DetachesOk(w)
    requires u in w.threads && w' == At(w, u, pc)
    requires Holding(w.threads[u].pc) == None && Holding(pc) == None && WaiterOk(w, pc, u)
    requires KeepsDuties(w, w', u)
    requires IsLive(w, FailingFor(w.threads[u].pc)) ==> FailingFor(pc) == FailingFor(w.threads[u].pc)
    ensures KeepsStill(w, w', u)
  {
    assert DetachOk(w, w.threads[u]);
    assert ThreadOk(w', u);
    forall s | s in w'.detached ensures DetachedOk(w', s) { assert DetachedOk(w, s); }
    if w'.threads[u].detaching.Some? {
      var s := w'.threads[u].detaching.value;
      forall id | id in w'.objs && Refers(w'.objs[id], s) && s !in w'.objs[id].history.unchecked
        ensures Owes(w'.threads[u], id)
      {
        assert Sound(w.objs[id], w.now);
      }
    }
  }

  lemma EndedKeeps(w: World, u: ThreadId)
    requires SessionsOk(w) && DetachesOk(w) && u in w.threads && Holding(w.threads[u].pc) == None
    requires !IsLive(w, ExpiringFor(w.threads[u].pc)) && !IsLive(w, StartingFor(w.threads[u].pc))
    ensures KeepsStill(w, Ended(w, u), u)
  {
    var w' := Ended(w, u);
    forall s | s in w'.detached ensures DetachedOk(w', s) { assert DetachedOk(w, s); }
  }
}
