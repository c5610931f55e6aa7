/** Publication, the steps outside relayMu, and the conclusion: every reachable world satisfies the invariant. */
module TransferRun {
  import opened Common
  import opened TransferModel
  import opened TransferEngine
  import opened TransferLocal
  import opened TransferInvariant
  import opened TransferSteps

  // ----- Publication

  /** A StartTransfer that found both devices free. */
  ghost predicate Publishes(w: World, w': World, u: ThreadId, id: TransferId, kept: set<TransferId>) {
    && u in w.threads && w.threads[u].pc.Publish? && w.table <= w.objs.Keys
    && w.threads[u].pc.a !in w.active && w.threads[u].pc.b !in w.active
    && PublishNext(w, w', u, id, kept)
  }

  /** What publication changes, field by field. */
  ghost predicate Published(w: World, w': World, u: ThreadId, id: TransferId) {
    && u in w.threads && w.threads[u].pc.Publish? && id !in w.objs
    && var pc := w.threads[u].pc;
       && pc.a !in w.active && pc.b !in w.active
       && w'.objs == w.objs[id := Created(pc.a, pc.b, pc.src, pc.tgt, u, pc.createdAt, w.now)]
       && w'.active == w.active[pc.a := id][pc.b := id]
       && w'.threads == w.threads[u := w.threads[u].(pc := WantRelay(id, StartOp), starting := true)]
       && w'.devices == w.devices && w'.sessions == w.sessions && w'.now == w.now && w'.detached == w.detached
  }

  lemma PublishCore(w: World, w': World, u: ThreadId, id: TransferId)
    requires TransfersSound(w) && RelaysOk(w) && ThreadsOk(w) && Published(w, w', u, id)
    ensures TransfersSound(w') && RelaysOk(w') && ThreadsOk(w')
  {
    assert ThreadOk(w, u);
    var t := w'.objs[id];
    assert Sound(t, w'.now) && Quiet(t);
    forall i | i in w'.objs ensures Sound(w'.objs[i], w'.now) && RelayOk(w'.objs[i], i, w'.threads) {
      if i != id { assert Sound(w.objs[i], w.now) && RelayOk(w.objs[i], i, w.threads); }
    }
    forall v | v in w'.threads ensures ThreadOk(w', v) {
      if v != u { assert ThreadOk(w, v); }
    }
  }

  /** Pruning leaves room, or nothing but live transfers. */
  lemma PublishTable(w: World, w': World, u: ThreadId, id: TransferId, kept: set<TransferId>)
    requires TableOk(w) && Publishes(w, w', u, id, kept)
    ensures TableOk(w')
  {
    var live := Live(Update(w, id, w'.objs[id]));
    assert w'.table == kept + {id} && w'.peak == Max(w.peak, |live|);
    if |kept| >= MAX_HISTORY {
      assert w'.table <= live;
      SubsetSize(w'.table, live);
    }
    KeptLive(w, w', id, kept);
  }

  lemma KeptLive(w: World, w': World, id: TransferId, kept: set<TransferId>)
    requires TableOk(w) && Pruned(w.objs, w.table, kept) && w'.table == kept + {id}
    requires id in w'.objs && w'.objs == w.objs[id := w'.objs[id]]
    ensures w'.table <= w'.objs.Keys && forall x :: x in w'.objs && !Final(w'.objs[x].state) ==> x in w'.table
  {
  }

  lemma PublishReservations(w: World, w': World, u: ThreadId, id: TransferId)
    requires ReservationsOk(w) && Published(w, w', u, id)
    ensures ReservationsOk(w')
  {
  }

  lemma PublishSessions(w: World, w': World, u: ThreadId, id: TransferId)
    requires SessionsOk(w) && Published(w, w', u, id) && WaiterOk(w, w.threads[u].pc, u)
    ensures SessionsOk(w')
  {
  }

  lemma PublishDuties(w: World, w': World, u: ThreadId, id: TransferId)
    requires DutiesOk(w) && DetachesOk(w) && Published(w, w', u, id)
    ensures DutiesOk(w') && DetachesOk(w')
  {
    forall i | i in w'.objs ensures ExpirerOk(w', i) && StarterOk(w', i) {
      if i != id { assert ExpirerOk(w, i) && StarterOk(w, i); }
    }
    forall v | v in w'.threads ensures DetachOk(w', w'.threads[v]) {
      assert DetachOk(w, w.threads[v]);
    }
    forall s | s in w'.detached ensures DetachedOk(w', s) { assert DetachedOk(w, s); }
  }

  lemma PublishInv(w: World, w': World, u: ThreadId, id: TransferId, kept: set<TransferId>)
    requires Inv(w) && Publishes(w, w', u, id, kept)
    ensures Inv(w')
  {
    assert Published(w, w', u, id);
    assert TransfersSound(w') && RelaysOk(w') && ThreadsOk(w') by { PublishCore(w, w', u, id); }
    assert TableOk(w') by { PublishTable(w, w', u, id, kept); }
    assert ReservationsOk(w') by { PublishReservations(w, w', u, id); }
    assert SessionsOk(w') by {
      assert ThreadOk(w, u);
      PublishSessions(w, w', u, id);
    }
    assert DutiesOk(w') && DetachesOk(w') by { PublishDuties(w, w', u, id); }
  }

  // ----- Steps outside relayMu that change no transfer

  /** A step of thread `u` standing at `pc`. */
  ghost predicate StepAt(w: World, w': World, s: Step, pc: Pc) {
    && s.Run? && s.thread in w.threads && w.threads[s.thread].pc == pc
    && w.table <= w.objs.Keys && RunNext(w, w', s)
  }

  /** What the thread itself knows before such a step. */
  ghost predicate Knows(w: World, u: ThreadId) {
    && TransfersSound(w) && SessionsOk(w) && DetachesOk(w)
    && (u in w.threads ==> ThreadOk(w, u))
  }

  lemma ResolveKeeps(w: World, w': World, s: Step, pc: Pc)
    requires StepAt(w, w', s, pc) && Knows(w, s.thread) && (pc.ResolveSource? || pc.ResolveTarget?)
    ensures KeepsStill(w, w', s.thread)
  {
    var u := s.thread;
    if u in w'.threads { MoveKeeps(w, w', u, w'.threads[u].pc); } else { EndedKeeps(w, u); }
  }

  lemma BusyKeeps(w: World, w': World, s: Step, pc: Pc)
    requires StepAt(w, w', s, pc) && Knows(w, s.thread) && pc.Publish? && (pc.a in w.active || pc.b in w.active)
    ensures KeepsStill(w, w', s.thread)
  {
    EndedKeeps(w, s.thread);
  }

  /** A handler that drops its message or goes on to work on, or fail, the transfer. */
  lemma DropOrGoKeeps(w: World, w': World, u: ThreadId, next: Pc)
    requires Knows(w, u) && u in w.threads && w' == At(w, u, next)
    requires var pc := w.threads[u].pc;
             pc.SourceFinishCheck? || pc.PeerFailedCheck? || pc.SourceCancelledCheck? || pc.TargetFinish?
    requires next == NextFailure || (next.Lookup? && WaiterOk(w, next, u))
    ensures KeepsStill(w, w', u)
  {
    MoveKeeps(w, w', u, next);
  }

  lemma PeerCheckKeeps(w: World, w': World, s: Step, pc: Pc)
    requires StepAt(w, w', s, pc) && Knows(w, s.thread) && (pc.PeerFailedCheck? || pc.SourceCancelledCheck?)
    ensures KeepsStill(w, w', s.thread)
  {
    var next := if w' == At(w, s.thread, NextFailure) then NextFailure else Lookup(pc.id, FailOp);
    assert w' == At(w, s.thread, next);
    DropOrGoKeeps(w, w', s.thread, next);
  }

  lemma FinishCheckKeeps(w: World, w': World, s: Step, pc: Pc)
    requires StepAt(w, w', s, pc) && Knows(w, s.thread) && pc.SourceFinishCheck?
    ensures KeepsStill(w, w', s.thread)
  {
    DropOrGoKeeps(w, w', s.thread, w'.threads[s.thread].pc);
  }

  /** A thread looks its transfer up; it need not if the transfer has been pruned, for then it is final. */
  lemma LookupKeeps(w: World, w': World, s: Step, pc: Pc)
    requires StepAt(w, w', s, pc) && Knows(w, s.thread) && pc.Lookup?
    requires pc.id in w.objs && !Final(w.objs[pc.id].state) ==> pc.id in w.table
    ensures KeepsStill(w, w', s.thread)
  {
    MoveKeeps(w, w', s.thread, w'.threads[s.thread].pc);
  }

  lemma AwaitKeeps(w: World, w': World, s: Step, pc: Pc)
    requires StepAt(w, w', s, pc) && Knows(w, s.thread) && pc.AwaitReady?
    ensures KeepsStill(w, w', s.thread)
  {
    if s.ok { EndedKeeps(w, s.thread); } else { GiveUpKeeps(w, w', s, pc); }
  }

  lemma GiveUpKeeps(w: World, w': World, s: Step, pc: Pc)
    requires StepAt(w, w', s, pc) && Knows(w, s.thread) && pc.AwaitReady? && !s.ok
    ensures KeepsStill(w, w', s.thread)
  {
    DetachesStay(w, w');
    assert ThreadOk(w', s.thread) && DetachOk(w, w'.threads[s.thread]) by { assert DetachOk(w, w.threads[s.thread]); }
  }

  lemma NextFailureKeeps(w: World, w': World, s: Step, pc: Pc)
    requires StepAt(w, w', s, pc) && Knows(w, s.thread) && pc.NextFailure? && w.threads[s.thread].pending != []
    ensures KeepsStill(w, w', s.thread)
  {
    NextKeeps(w, w', s.thread);
  }

  lemma NextKeeps(w: World, w': World, u: ThreadId)
    requires Knows(w, u) && u in w.threads && w.threads[u].pc.NextFailure? && w.threads[u].pending != []
    requires var th := w.threads[u];
             w' == w.(threads := w.threads[u := th.(pc := Lookup(th.pending[0], FailOp), pending := th.pending[1..])])
    ensures KeepsStill(w, w', u)
  {
    TakesNext(w, u);
    DetachesStay(w, w');
    assert ThreadOk(w', u);
  }

  /** The thread's next duty is its first pending one. */
  lemma TakesNext(w: World, u: ThreadId)
    requires DetachesOk(w) && u in w.threads && w.threads[u].pc.NextFailure? && w.threads[u].pending != []
    ensures var th := w.threads[u];
            DetachOk(w, th.(pc := Lookup(th.pending[0], FailOp), pending := th.pending[1..]))
  {
    var pending := w.threads[u].pending;
    assert DetachOk(w, w.threads[u]);
    assert pending == [pending[0]] + pending[1..];
  }

  lemma LastFailureKeeps(w: World, w': World, s: Step, pc: Pc)
    requires StepAt(w, w', s, pc) && Knows(w, s.thread) && pc.NextFailure? && w.threads[s.thread].pending == []
    ensures KeepsStill(w, w', s.thread)
  {
    assert DetachOk(w, w.threads[s.thread]);
    forall x | x in w'.detached ensures DetachedOk(w', x) {
      if x in w.detached { assert DetachedOk(w, x); }
    }
  }

  lemma UnregisterStill(w: World, w': World, s: Step, pc: Pc)
    requires StepAt(w, w', s, pc) && SessionsOk(w) && pc.Unregister?
    ensures Still(w, w', s.thread) && w'.detached == w.detached
    ensures s.thread in w'.threads && w'.threads[s.thread] == w.threads[s.thread].(pc := CloseSession(pc.session))
    ensures pc.session in w'.sessions
  {
  }

  lemma CloseStill(w: World, w': World, s: Step, pc: Pc)
    requires StepAt(w, w', s, pc) && SessionsOk(w) && pc.CloseSession?
    ensures Still(w, w', s.thread) && w'.detached == w.detached
    ensures s.thread in w'.threads && w'.threads[s.thread] == w.threads[s.thread].(pc := Scan(pc.session))
    ensures pc.session in w'.sessions && w'.sessions[pc.session].closed
  {
  }

  /** A thread without duties to timers or starts changes registry or sessions and moves on. */
  lemma DetachingKeeps(w: World, w': World, u: ThreadId, pc: Pc)
    requires DetachesOk(w) && Still(w, w', u) && w'.detached == w.detached && u in w.threads && u in w'.threads
    requires w.threads[u].pc.Unregister? || w.threads[u].pc.CloseSession?
    requires (pc.CloseSession? || pc.Scan?) && w'.threads[u] == w.threads[u].(pc := pc) && WaiterOk(w', pc, u)
    ensures KeepsStill(w, w', u)
  {
    DetachesStay(w, w');
    assert ThreadOk(w', u) && DetachOk(w, w'.threads[u]) by { assert DetachOk(w, w.threads[u]); }
  }

  lemma UnregisterKeeps(w: World, w': World, s: Step, pc: Pc)
    requires StepAt(w, w', s, pc) && Knows(w, s.thread) && pc.Unregister?
    ensures KeepsStill(w, w', s.thread)
  {
    UnregisterStill(w, w', s, pc);
    DetachingKeeps(w, w', s.thread, CloseSession(pc.session));
  }

  lemma CloseKeeps(w: World, w': World, s: Step, pc: Pc)
    requires StepAt(w, w', s, pc) && Knows(w, s.thread) && pc.CloseSession?
    ensures KeepsStill(w, w', s.thread)
  {
    CloseStill(w, w', s, pc);
    DetachingKeeps(w, w', s.thread, Scan(pc.session));
  }

  /** A scan finds every live transfer that still refers to the session; a scan of all devices, every live transfer. */
  lemma ScanFinds(w: World, device: Option<Device>, x: SessionId, found: seq<TransferId>)
    requires TransfersSound(w) && SessionsOk(w) && x in w.sessions && Collected(w, device, found)
    requires device == None || device == Some(w.sessions[x].device)
    requires forall id :: id in w.objs && !Final(w.objs[id].state) ==> id in w.table
    ensures forall id :: id in w.objs && Refers(w.objs[id], x) ==> id in found
  {
    forall id | id in w.objs && Refers(w.objs[id], x) ensures id in found {
      assert Sound(w.objs[id], w.now);
    }
  }

  /** A scanning thread has found out what to fail next. */
  lemma PlanKeeps(w: World, w': World, u: ThreadId, th: Thread)
    requires Knows(w, u) && u in w.threads && (w.threads[u].pc.Scan? || w.threads[u].pc.ScanAll?)
    requires th.pc == NextFailure && w' == w.(threads := w.threads[u := th]) && DetachOk(w, th)
    ensures KeepsStill(w, w', u)
  {
    assert ThreadOk(w', u);
    DetachesStay(w, w');
  }

  /** The scan comes after the session was closed, so that nothing found later can refer to it for long. */
  lemma ScanKeeps(w: World, w': World, s: Step, pc: Pc)
    requires StepAt(w, w', s, pc) && Knows(w, s.thread) && pc.Scan?
    requires forall id :: id in w.objs && !Final(w.objs[id].state) ==> id in w.table
    ensures KeepsStill(w, w', s.thread)
  {
    var th := w'.threads[s.thread];
    assert DetachOk(w, th) by { ScanFinds(w, Some(w.sessions[pc.session].device), pc.session, s.found); }
    PlanKeeps(w, w', s.thread, th);
  }

  lemma ScanAllKeeps(w: World, w': World, s: Step, pc: Pc)
    requires StepAt(w, w', s, pc) && Knows(w, s.thread) && pc.ScanAll?
    requires forall id :: id in w.objs && !Final(w.objs[id].state) ==> id in w.table
    ensures KeepsStill(w, w', s.thread)
  {
    var th := w'.threads[s.thread];
    assert DetachOk(w, th) by {
      assert DetachOk(w, w.threads[s.thread]);
      if th.detaching.Some? { ScanFinds(w, None, th.detaching.value, s.found); }
    }
    PlanKeeps(w, w', s.thread, th);
  }

  predicate MovesOnly(pc: Pc) {
    || pc.ResolveSource? || pc.ResolveTarget? || pc.SourceFinishCheck? || pc.PeerFailedCheck?
    || pc.SourceCancelledCheck? || pc.Lookup? || pc.AwaitReady? || pc.NextFailure? || pc.Unregister?
    || pc.CloseSession? || pc.Scan? || pc.ScanAll?
  }

  lemma MovingKeeps(w: World, w': World, s: Step, pc: Pc)
    requires StepAt(w, w', s, pc) && Knows(w, s.thread) && MovesOnly(pc)
    requires forall id :: id in w.objs && !Final(w.objs[id].state) ==> id in w.table
    ensures KeepsStill(w, w', s.thread)
  {
    match pc
    case ResolveSource(_, _) => ResolveKeeps(w, w', s, pc);
    case ResolveTarget(_, _, _) => ResolveKeeps(w, w', s, pc);
    case SourceFinishCheck(_, _, _, _) => FinishCheckKeeps(w, w', s, pc);
    case Lookup(_, _) => LookupKeeps(w, w', s, pc);
    case AwaitReady(_) => AwaitKeeps(w, w', s, pc);
    case NextFailure =>
      if w.threads[s.thread].pending == [] { LastFailureKeeps(w, w', s, pc); } else { NextFailureKeeps(w, w', s, pc); }
    case Unregister(_) => UnregisterKeeps(w, w', s, pc);
    case CloseSession(_) => CloseKeeps(w, w', s, pc);
    case Scan(_) => ScanKeeps(w, w', s, pc);
    case ScanAll => ScanAllKeeps(w, w', s, pc);
    case _ => PeerCheckKeeps(w, w', s, pc);
  }

  // ----- All steps

  lemma MovingInv(w: World, w': World, s: Step, pc: Pc)
    requires Inv(w) && StepAt(w, w', s, pc) && MovesOnly(pc)
    ensures Inv(w')
  {
    assert KeepsStill(w, w', s.thread) by {
      assert ThreadOk(w, s.thread);
      MovingKeeps(w, w', s, pc);
    }
    StillInv(w, w', s.thread);
  }

  lemma PublishStepInv(w: World, w': World, s: Step, pc: Pc)
    requires Inv(w) && StepAt(w, w', s, pc) && pc.Publish?
    ensures Inv(w')
  {
    if pc.a in w.active || pc.b in w.active {
      assert ThreadOk(w, s.thread);
      BusyKeeps(w, w', s, pc);
      StillInv(w, w', s.thread);
    } else {
      PublishInv(w, w', s.thread, s.newId, s.kept);
    }
  }

  lemma AcceptInv(w: World, w': World, u: ThreadId, id: TransferId, size: nat, raw: string)
    requires Inv(w) && u in w.threads && w.threads[u].pc.TargetFinish? && id in w.objs
    requires w.objs[id].state == Verifying && size == w.objs[id].size && Normalise(raw) == w.objs[id].digest
    requires w' == At(Update(w, id, Complete(w.objs[id], size, raw, w.now)), u, NextFailure).(
                     active := ReleaseDevices(w.active, id, w.objs[id]))
    ensures Inv(w')
  {
    assert TransfersSound(w') && RelaysOk(w') && ThreadsOk(w') by { AcceptCore(w, w', u, id, size, raw); }
    assert TableOk(w') && ReservationsOk(w') && SessionsOk(w') by { AcceptTables(w, w', u, id, size, raw); }
    assert DutiesOk(w') && DetachesOk(w') by { AcceptDuties(w, w', u, id, size, raw); }
  }

  lemma TargetFinishInv(w: World, w': World, s: Step, pc: Pc)
    requires Inv(w) && StepAt(w, w', s, pc) && pc.TargetFinish?
    ensures Inv(w')
  {
    var u := s.thread;
    if w' == At(w, u, NextFailure) || w' == At(w, u, Lookup(pc.id, FailOp)) {
      assert KeepsStill(w, w', u) by { DropOrGoKeeps(w, w', u, w'.threads[u].pc); }
      StillInv(w, w', u);
    } else {
      AcceptInv(w, w', u, pc.id, pc.size, pc.raw);
    }
  }

  lemma UnlockInv(w: World, w': World, u: ThreadId, id: TransferId)
    requires Inv(w) && u in w.threads && w.threads[u].pc == Unlock(id) && UnlockNext(w, w', u, id)
    ensures Inv(w')
  {
    assert TransfersSound(w') && RelaysOk(w') && ThreadsOk(w') by { UnlockCore(w, w', u, id); }
    assert Calm(w, w', id, u) by { UnlockCalm(w, w', u, id); }
    assert ExpirerOk(w', id) && StarterOk(w', id) by {
      assert ExpirerOk(w, id) && StarterOk(w, id);
      UnlockDuties(w, w', u, id);
    }
    RestKept(w, w', id, u);
  }

  lemma AcquireInv(w: World, w': World, u: ThreadId, id: TransferId, op: Op)
    requires Inv(w) && u in w.threads && w.threads[u].pc == WantRelay(id, op) && AcquireNext(w, w', u, id, op)
    ensures Inv(w')
  {
    assert TransfersSound(w') && RelaysOk(w') && ThreadsOk(w') by { AcquireCore(w, w', u, id, op); }
    assert Calm(w, w', id, u) by { AcquireCalm(w, w', u, id, op); }
    assert ExpirerOk(w', id) && StarterOk(w', id) by {
      assert ExpirerOk(w, id) && StarterOk(w, id);
      AcquireDuties(w, w', u, id, op);
    }
    RestKept(w, w', id, u);
  }

  lemma RunInv(w: World, w': World, s: Step, pc: Pc)
    requires Inv(w) && StepAt(w, w', s, pc)
    ensures Inv(w')
  {
    if MovesOnly(pc) {
      MovingInv(w, w', s, pc);
    } else if pc.Publish? {
      PublishStepInv(w, w', s, pc);
    } else if pc.TargetFinish? {
      TargetFinishInv(w, w', s, pc);
    } else if pc.WantRelay? {
      AcquireInv(w, w', s.thread, pc.id, pc.op);
    } else if pc.Unlock? {
      UnlockInv(w, w', s.thread, pc.id);
    } else {
      OwnerInv(w, w', s.thread, Holding(pc).value, s.ok);
    }
  }

  lemma FireInv(w: World, w': World, s: Step)
    requires Inv(w) && Next(w, w', s) && s.Fire?
    ensures Inv(w')
  {
    assert TransfersSound(w') && RelaysOk(w') && ThreadsOk(w') by { FireCore(w, w', s); }
    assert Calm(w, w', s.id, s.thread) by { FireCalm(w, w', s); }
    assert ExpirerOk(w', s.id) && StarterOk(w', s.id) by {
      assert StarterOk(w, s.id);
      FireDuties(w, w', s);
    }
    RestKept(w, w', s.id, s.thread);
  }

  lemma NextInv(w: World, w': World, s: Step)
    requires Inv(w) && Next(w, w', s)
    ensures Inv(w')
  {
    match s
    case Run(u, _, _, _, _) => RunInv(w, w', s, w.threads[u].pc);
    case Spawn(u, _) =>
      assert KeepsStill(w, w', u) by { SpawnKeeps(w, w', s); }
      StillInv(w, w', u);
    case Fire(_, _) => FireInv(w, w', s);
    case _ => QuietEnvironment(w, w', s);
  }

  lemma LinkedInv(w: World, w': World)
    requires Inv(w) && Linked(w, w')
    ensures Inv(w')
  {
    var s :| Next(w, w', s);
    NextInv(w, w', s);
  }

  /** Every world of every run satisfies the invariant. */
  lemma {:induction false} Reachable(run: seq<World>, i: nat)
    requires IsRun(run) && i < |run|
    ensures Inv(run[i])
  {
    if i > 0 {
      Reachable(run, i - 1);
      LinkedInv(run[i - 1], run[i]);
    }
  }
}
