/** The transfer engine as a transition system. A thread runs one handler; a step is one region under
    `transferMu` or `mu`, one hand-over to a transport, one return from a transport, or one lock
    operation on `relayMu`. Any thread may step next, and the environment may at any moment deliver a
    device message, fire a due timer, let time pass, connect a device or hang up a session. */
module TransferEngine {
  import opened Common
  import opened TransferModel

  const MAX_HISTORY: nat := 256

  /** What a thread that takes relayMu is there to do. */
  datatype Op =
    | StartOp
    | SourceReadyOp(from: SessionId, size: nat)
    | TargetReadyOp(from: SessionId)
    | ChunkOp(from: SessionId, sequence: nat, payload: Bytes)
    | SourceFinishOp(from: SessionId, size: nat, raw: string)
    | CancelOp
    | FailOp
    | ExpireOp

  datatype Pc =
    // StartTransfer before the transfer is published
    | ResolveSource(a: Device, b: Device)
    | ResolveTarget(a: Device, b: Device, src: SessionId)
    | Publish(a: Device, b: Device, src: SessionId, tgt: SessionId, createdAt: Clock)
    // a handler on its way to relayMu
    | SourceFinishCheck(id: TransferId, from: SessionId, size: nat, raw: string)
    | PeerFailedCheck(id: TransferId, from: SessionId)
    | SourceCancelledCheck(id: TransferId, from: SessionId)
    | TargetFinish(id: TransferId, from: SessionId, size: nat, raw: string)
    | Lookup(id: TransferId, op: Op)
    | WantRelay(id: TransferId, op: Op)
    // holding relayMu
    | Region(id: TransferId, op: Op)
    | Hand(id: TransferId, to: SessionId, message: Message)
    | InTransport(id: TransferId, to: SessionId, message: Message)
    | ChunkSent(id: TransferId, sequence: nat, payload: Bytes)
    | FailNow(id: TransferId, expired: bool)
    | TellCancel(id: TransferId, peers: seq<SessionId>)
    | CancelInTransport(id: TransferId, peers: seq<SessionId>)
    | Unlock(id: TransferId)
    // after relayMu
    | AwaitReady(id: TransferId)
    | NextFailure
    // Detach and cancelAllTransfers
    | Unregister(session: SessionId)
    | CloseSession(session: SessionId)
    | Scan(session: SessionId)
    | ScanAll

  /** `pending` lists the transfers a detach has still to fail after the current one;
      `detaching` is set once its scan is done; `starting` marks StartTransfer. */
  datatype Thread = Thread(pc: Pc, pending: seq<TransferId>, detaching: Option<SessionId>, starting: bool)

  datatype Session = Session(device: Device, closed: bool)

  datatype World = World(
    objs: map<TransferId, Transfer>,         // every transfer object ever published
    table: set<TransferId>,                  // those still listed in Manager.transfers
    active: map<Device, TransferId>,         // Manager.activeTransfer
    devices: map<Device, SessionId>,         // Manager.devices, restricted to attached devices
    sessions: map<SessionId, Session>,
    threads: map<ThreadId, Thread>,
    now: Clock,
    peak: nat,                               // history: most live transfers ever seen at a publication
    detached: set<SessionId>)                // history: sessions for which some Detach has returned

  // ----- One step of a thread that holds relayMu

  /** The transfer whose relayMu a thread at `pc` holds. */
  function Holding(pc: Pc): Option<TransferId> {
    match pc
    case Region(id, _) => Some(id)
    case Hand(id, _, _) => Some(id)
    case InTransport(id, _, _) => Some(id)
    case ChunkSent(id, _, _) => Some(id)
    case FailNow(id, _) => Some(id)
    case TellCancel(id, _) => Some(id)
    case CancelInTransport(id, _) => Some(id)
    case Unlock(id) => Some(id)
    case _ => None
  }

  function Follow(id: TransferId, o: Outcome, expiring: bool): Pc {
    match o
    case Leave => Unlock(id)
    case SendMessage(to, message) => Hand(id, to, message)
    case GiveUp => FailNow(id, expiring)
  }

  function Logged(t: Transfer, to: SessionId, message: Message): Transfer {
    t.(history := t.history.(
         log := t.history.log + [Event(to, message)],
         unchecked := if message.TargetStart? || message.SourceStart? then t.history.unchecked - {to}
                      else t.history.unchecked))
  }

  /** A message was due to session `to`, which is closed. */
  function Missed(t: Transfer, to: SessionId): Transfer {
    t.(history := t.history.(unreachable := t.history.unreachable + {to}))
  }

  function RegionStep(t: Transfer, id: TransferId, op: Op, listed: bool, now: Clock): (Transfer, Pc) {
    match op
    case StartOp => (t, Hand(id, t.history.tgt, TargetStart))
    case SourceReadyOp(from, size) =>
      var (t1, o) := SourceReadyRegion(listed, t, from, size, now);
      (t1, Follow(id, o, false))
    case TargetReadyOp(from) =>
      var (t1, o) := TargetReadyRegion(listed, t, from, now);
      (t1, Follow(id, o, false))
    case ChunkOp(from, sequence, payload) =>
      (t, Follow(id, ChunkRegion(listed, t, from, sequence, payload), false))
    case SourceFinishOp(from, size, raw) =>
      var (t1, o) := SourceFinishRegion(listed, t, from, size, raw, now);
      (t1, Follow(id, o, false))
    case CancelOp =>
      var (t1, peers) := EndRegion(listed, t, Cancelled, now);
      (t1, TellCancel(id, peers))
    case FailOp =>
      var (t1, peers) := EndRegion(listed, t, Failed, now);
      (t1, TellCancel(id, peers))
    case ExpireOp =>
      var (t1, o) := ExpireRegion(listed, t, now);
      (t1, Follow(id, o, true))
  }

  /** `closed` holds the sessions whose done channel is closed; `ok` is what the transport returns. */
  function HolderStep(t: Transfer, pc: Pc, listed: bool, closed: set<SessionId>, ok: bool, now: Clock): (Transfer, Pc)
    requires Holding(pc).Some? && !pc.Unlock?
  {
    match pc
    case Region(id, op) => RegionStep(t, id, op, listed, now)
    case Hand(id, to, message) =>
      if to in closed then (Missed(t, to), FailNow(id, false))
      else (Logged(t, to, message), InTransport(id, to, message))
    case InTransport(id, to, message) =>
      if !ok then (t, FailNow(id, false))
      else
        (t, match message
            case TargetStart => Hand(id, t.history.src, SourceStart)
            case Chunk(sequence, payload) => ChunkSent(id, sequence, payload)
            case _ => Unlock(id))
    case ChunkSent(id, sequence, payload) =>
      (ChunkSentRegion(listed, t, sequence, payload, now), Unlock(id))
    case FailNow(id, expired) =>
      var (t1, peers) := EndRegion(listed, t, Failed, now);
      (if expired then t1.(history := t1.history.(expirer := None)) else t1, TellCancel(id, peers))
    case TellCancel(id, peers) =>
      if peers == [] then (t, Unlock(id))
      else if peers[0] in closed then (Missed(t, peers[0]), TellCancel(id, peers[1..]))
      else (Logged(t, peers[0], Cancel), CancelInTransport(id, peers[1..]))
    case CancelInTransport(id, peers) => (t, TellCancel(id, peers))
    case Unlock(_) => (t, pc)
  }

  // ----- The world's steps

  ghost function Live(w: World): set<TransferId> {
    set id | id in w.objs && !Final(w.objs[id].state)
  }

  ghost function Closed(w: World): set<SessionId> {
    set s | s in w.sessions && w.sessions[s].closed
  }

  /** The result of pruneTransferHistoryLocked: `kept` is what stays of `table`. */
  ghost predicate Pruned(objs: map<TransferId, Transfer>, table: set<TransferId>, kept: set<TransferId>)
    requires table <= objs.Keys
  {
    && kept <= table
    && (forall id :: id in table - kept ==> Final(objs[id].state))
    && (|kept| < MAX_HISTORY || forall id :: id in kept ==> !Final(objs[id].state))
    && (forall id, other :: id in table - kept && other in kept && Final(objs[other].state) ==>
          objs[id].updatedAt <= objs[other].updatedAt)
    && (kept != table ==> |kept| >= MAX_HISTORY - 1)
  }

  /** Pcs at which the environment may start a thread. */
  predicate Entry(pc: Pc) {
    match pc
    case ResolveSource(a, b) => a != b
    case SourceFinishCheck(_, _, _, _) => true
    case PeerFailedCheck(_, _) => true
    case SourceCancelledCheck(_, _) => true
    case TargetFinish(_, _, _, _) => true
    case Lookup(_, op) =>
      || op.TargetReadyOp? || op.CancelOp?
      || (op.SourceReadyOp? && op.size < WORD)
      || (op.ChunkOp? && |op.payload| <= MAX_PAYLOAD)
    case Unregister(_) => true
    case ScanAll => true
    case _ => false
  }

  datatype Step =
    | Tick(elapsed: nat)
    | Adjust(offset: int)                         // the wall clock is set
    | Attach(device: Device, session: SessionId)
    | Forget(device: Device)                      // Manager.Close empties the registry ...
    | Hangup(session: SessionId)                  // ... and closes the sessions
    | Spawn(thread: ThreadId, pc: Pc)
    | Fire(id: TransferId, thread: ThreadId)
    | Run(thread: ThreadId, ok: bool, newId: TransferId, kept: set<TransferId>, found: seq<TransferId>)

  function Adjusted(c: Clock, offset: int): Clock {
    c.(offset := offset,
       low := if offset < c.low then offset else c.low,
       high := if c.high < offset then offset else c.high)
  }

  function At(w: World, u: ThreadId, pc: Pc): World
    requires u in w.threads
  {
    w.(threads := w.threads[u := w.threads[u].(pc := pc)])
  }

  /** The thread has nothing left to do. */
  function Ended(w: World, u: ThreadId): World {
    w.(threads := w.threads - {u})
  }

  function Update(w: World, id: TransferId, t: Transfer): World {
    w.(objs := w.objs[id := t])
  }

  ghost predicate AcquireNext(w: World, w': World, u: ThreadId, id: TransferId, op: Op)
    requires u in w.threads
  {
    && id in w.objs && w.objs[id].relay == None
    && w' == At(Update(w, id, w.objs[id].(relay := Some(u))), u, Region(id, op))
  }

  ghost predicate UnlockNext(w: World, w': World, u: ThreadId, id: TransferId)
    requires u in w.threads
  {
    && id in w.objs
    && w' == At(Update(w, id, w.objs[id].(relay := None)), u,
                if w.threads[u].starting then AwaitReady(id) else NextFailure)
  }

  ghost predicate HolderNext(w: World, w': World, u: ThreadId, id: TransferId, ok: bool)
    requires u in w.threads && Holding(w.threads[u].pc) == Some(id) && !w.threads[u].pc.Unlock? && id in w.objs
  {
    var t := w.objs[id];
    var (t1, pc1) := HolderStep(t, w.threads[u].pc, id in w.table, Closed(w), ok, w.now);
    var active1 := if Final(t1.state) && !Final(t.state) then ReleaseDevices(w.active, id, t) else w.active;
    w' == At(Update(w, id, t1), u, pc1).(active := active1)
  }

  ghost predicate PublishNext(w: World, w': World, u: ThreadId, id: TransferId, kept: set<TransferId>)
    requires u in w.threads && w.threads[u].pc.Publish? && w.table <= w.objs.Keys
  {
    var pc := w.threads[u].pc;
    if pc.a in w.active || pc.b in w.active then w' == Ended(w, u)
    else
      && id !in w.objs
      && Pruned(w.objs, w.table, kept)
      && var w1 := Update(w, id, Created(pc.a, pc.b, pc.src, pc.tgt, u, pc.createdAt, w.now));
         w' == At(w1, u, WantRelay(id, StartOp)).(
               table := kept + {id},
               active := w.active[pc.a := id][pc.b := id],
               threads := w.threads[u := w.threads[u].(pc := WantRelay(id, StartOp), starting := true)],
               peak := Max(w.peak, |Live(w1)|))
  }

  ghost predicate TargetFinishNext(w: World, w': World, u: ThreadId)
    requires u in w.threads && w.threads[u].pc.TargetFinish?
  {
    var pc := w.threads[u].pc;
    if pc.id !in w.table || pc.id !in w.objs then w' == At(w, u, NextFailure)
    else
      var t := w.objs[pc.id];
      match TargetFinishVerdict(true, t, pc.from, pc.size, pc.raw)
      case Ignored => w' == At(w, u, NextFailure)
      case Mismatch => w' == At(w, u, Lookup(pc.id, FailOp))
      case Accepted =>
        w' == At(Update(w, pc.id, Complete(t, pc.size, pc.raw, w.now)), u, NextFailure).(
              active := ReleaseDevices(w.active, pc.id, t))
  }

  /** The ids collected by failTransfersForDevice (or, without a device, by cancelAllTransfers). */
  ghost predicate Collected(w: World, device: Option<Device>, found: seq<TransferId>) {
    forall id :: id in found <==>
      && id in w.table && id in w.objs && !Final(w.objs[id].state)
      && (device.Some? ==> w.objs[id].sourceDevice == device.value || w.objs[id].targetDevice == device.value)
  }

  ghost predicate RunNext(w: World, w': World, s: Step)
    requires s.Run? && w.table <= w.objs.Keys
  {
    var u := s.thread;
    && u in w.threads
    && var th := w.threads[u];
       match th.pc
       case ResolveSource(a, b) =>
         if a in w.devices then w' == At(w, u, ResolveTarget(a, b, w.devices[a])) else w' == Ended(w, u)
       case ResolveTarget(a, b, src) =>
         if b in w.devices then w' == At(w, u, Publish(a, b, src, w.devices[b], w.now)) else w' == Ended(w, u)
       case Publish(_, _, _, _, _) => PublishNext(w, w', u, s.newId, s.kept)
       case SourceFinishCheck(id, from, size, raw) =>
         w' == At(w, u, Lookup(id, if ValidDigest(Normalise(raw)) then SourceFinishOp(from, size, raw) else FailOp))
       case PeerFailedCheck(id, from) =>
         if id in w.table && (w.objs[id].source == Some(from) || w.objs[id].target == Some(from))
         then w' == At(w, u, Lookup(id, FailOp)) else w' == At(w, u, NextFailure)
       case SourceCancelledCheck(id, from) =>
         if id in w.table && w.objs[id].source == Some(from) && w.objs[id].state != Cancelled
         then w' == At(w, u, Lookup(id, FailOp)) else w' == At(w, u, NextFailure)
       case TargetFinish(_, _, _, _) => TargetFinishNext(w, w', u)
       case Lookup(id, op) =>
         if id in w.table then w' == At(w, u, WantRelay(id, op)) else w' == At(w, u, NextFailure)
       case WantRelay(id, op) => AcquireNext(w, w', u, id, op)
       case Unlock(id) => UnlockNext(w, w', u, id)
       case AwaitReady(id) =>
         && id in w.objs
         && if s.ok then w.objs[id].readyClosed && w' == Ended(w, u)
            else w' == w.(threads := w.threads[u := th.(pc := Lookup(id, CancelOp), starting := false)])
       case NextFailure =>
         if th.pending != [] then
           w' == w.(threads := w.threads[u := th.(pc := Lookup(th.pending[0], FailOp), pending := th.pending[1..])])
         else
           w' == Ended(w, u).(detached := if th.detaching.Some? then w.detached + {th.detaching.value} else w.detached)
       case Unregister(session) =>
         && session in w.sessions
         && var d := w.sessions[session].device;
            w' == At(w, u, CloseSession(session)).(
                  devices := if d in w.devices && w.devices[d] == session then w.devices - {d} else w.devices)
       case CloseSession(session) =>
         && session in w.sessions
         && w' == At(w, u, Scan(session)).(sessions := w.sessions[session := w.sessions[session].(closed := true)])
       case Scan(session) =>
         && session in w.sessions
         && Collected(w, Some(w.sessions[session].device), s.found)
         && w' == w.(threads := w.threads[u := th.(pc := NextFailure, pending := s.found, detaching := Some(session))])
       case ScanAll =>
         && Collected(w, None, s.found)
         && w' == w.(threads := w.threads[u := th.(pc := NextFailure, pending := s.found)])
       case _ =>
         && Holding(th.pc).value in w.objs
         && HolderNext(w, w', u, Holding(th.pc).value, s.ok)
  }

  ghost predicate Next(w: World, w': World, s: Step) {
    match s
    case Tick(elapsed) => w' == w.(now := w.now.(mono := w.now.mono + elapsed))
    case Adjust(offset) => w' == w.(now := Adjusted(w.now, offset))
    case Attach(device, session) =>
      && device !in w.devices && session !in w.sessions
      && w' == w.(devices := w.devices[device := session], sessions := w.sessions[session := Session(device, false)])
    case Forget(device) => w' == w.(devices := w.devices - {device})
    case Hangup(session) =>
      && session in w.sessions
      && w' == w.(sessions := w.sessions[session := w.sessions[session].(closed := true)])
    case Spawn(u, pc) =>
      && u !in w.threads && Entry(pc)
      && (pc.Unregister? ==> pc.session in w.sessions)
      && w' == w.(threads := w.threads[u := Thread(pc, [], None, false)])
    case Fire(id, u) =>
      && id in w.objs && u !in w.threads
      && w.objs[id].timer.Some? && w.objs[id].timer.value <= w.now.mono
      && var t := w.objs[id];
         w' == Update(w, id, t.(timer := None, history := t.history.(expirer := Some(u)))).(
               threads := w.threads[u := Thread(Lookup(id, ExpireOp), [], None, false)])
    case Run(_, _, _, _, _) => w.table <= w.objs.Keys && RunNext(w, w', s)
  }

  ghost predicate Init(w: World) {
    w == World(map[], {}, map[], map[], map[], map[], Reading(0, 0, 0, 0), 0, {})
  }

  ghost predicate Linked(w: World, w': World) {
    exists s :: Next(w, w', s)
  }

  /** A run of the engine from its empty start. */
  ghost predicate IsRun(run: seq<World>) {
    && run != []
    && Init(run[0])
    && forall i, j {:trigger Linked(run[i], run[j])} :: 0 <= i && i + 1 == j < |run| ==> Linked(run[i], run[j])
  }
}
