/** What Detach and Manager.Close do to transfers: both scan the table once and fail what they found, one after the
    other. The scan of Detach goes by device name, not by session. */
module TransferScans {
  import opened Common
  import opened TransferModel
  import opened TransferEngine
  import opened TransferInvariant
  import opened TransferRun
  import opened TransferTheorems
  import opened TransferStarters
  import opened TransferScenes

  /** A scan by session `s`, or of all transfers, looks for this one. */
  ghost predicate Wanted(w: World, pc: Pc, id: TransferId) {
    && id in w.objs && !Final(w.objs[id].state)
    && (pc.Scan? ==>
          && pc.session in w.sessions
          && (w.objs[id].sourceDevice == w.sessions[pc.session].device
              || w.objs[id].targetDevice == w.sessions[pc.session].device))
  }

  /** The transfer the thread is working on at `pc`. */
  function WorksOn(pc: Pc): Option<TransferId> {
    match pc
    case Lookup(id, _) => Some(id)
    case WantRelay(id, _) => Some(id)
    case _ => Holding(pc)
  }

  /** A thread that has scanned and works on what it found. */
  predicate AtWork(th: Thread) {
    && !th.starting
    && match th.pc
       case NextFailure => true
       case Lookup(_, op) => op.FailOp?
       case WantRelay(_, op) => op.FailOp?
       case Region(_, op) => op.FailOp?
       case TellCancel(_, _) => true
       case CancelInTransport(_, _) => true
       case Unlock(_) => true
       case _ => false
  }

  /** All it works on, or still has to, is among `found`. */
  ghost predicate Within(th: Thread, found: set<TransferId>) {
    AtWork(th) && (forall id :: id in th.pending ==> id in found)
        && (WorksOn(th.pc).Some? ==> WorksOn(th.pc).value in found)
  }

  lemma HeldWorkStep(w: World, w': World, s: Step, pc: Pc, found: set<TransferId>)
    requires StepAt(w, w', s, pc) && Within(w.threads[s.thread], found) && Holding(pc).Some? && !pc.Unlock?
    ensures s.thread in w'.threads ==> Within(w'.threads[s.thread], found)
  {
    assert HolderNext(w, w', s.thread, Holding(pc).value, s.ok);
  }

  lemma NextWorkStep(w: World, w': World, s: Step, pc: Pc, found: set<TransferId>)
    requires StepAt(w, w', s, pc) && Within(w.threads[s.thread], found) && pc.NextFailure?
    ensures s.thread in w'.threads ==> Within(w'.threads[s.thread], found)
  {
    var pending := w.threads[s.thread].pending;
    assert pending != [] ==> pending == [pending[0]] + pending[1..];
  }

  lemma LookupWorkStep(w: World, w': World, s: Step, pc: Pc, found: set<TransferId>)
    requires StepAt(w, w', s, pc) && Within(w.threads[s.thread], found) && pc.Lookup?
    ensures s.thread in w'.threads ==> Within(w'.threads[s.thread], found)
  {
    var th := w.threads[s.thread];
    assert w' == At(w, s.thread, if pc.id in w.table then WantRelay(pc.id, pc.op) else NextFailure);
    assert w'.threads[s.thread] == th.(pc := w'.threads[s.thread].pc);
  }

  lemma LockWorkStep(w: World, w': World, s: Step, pc: Pc, found: set<TransferId>)
    requires StepAt(w, w', s, pc) && Within(w.threads[s.thread], found) && (pc.WantRelay? || pc.Unlock?)
    ensures s.thread in w'.threads ==> Within(w'.threads[s.thread], found)
  {
  }

  lemma WorkStep(w: World, w': World, s: Step, pc: Pc, found: set<TransferId>)
    requires StepAt(w, w', s, pc) && Within(w.threads[s.thread], found)
    ensures s.thread in w'.threads ==> Within(w'.threads[s.thread], found)
  {
    if pc.NextFailure? {
      NextWorkStep(w, w', s, pc, found);
    } else if pc.Lookup? {
      LookupWorkStep(w, w', s, pc, found);
    } else if pc.WantRelay? || pc.Unlock? {
      LockWorkStep(w, w', s, pc, found);
    } else {
      HeldWorkStep(w, w', s, pc, found);
    }
  }

  /** The transfer is over, or the thread has still to fail it. */
  ghost predicate Settled(w: World, u: ThreadId, id: TransferId) {
    id in w.objs && (Final(w.objs[id].state) || (u in w.threads && Owes(w.threads[u], id)))
  }

  lemma HeldFailureStep(w: World, w': World, s: Step, pc: Pc, id: TransferId)
    requires StepAt(w, w', s, pc) && AtWork(w.threads[s.thread]) && id in w.objs && id in w'.objs
    requires !Final(w.objs[id].state) && id in w.table && Owes(w.threads[s.thread], id)
    requires Holding(pc).Some? && !pc.Unlock?
    ensures Settled(w', s.thread, id)
  {
    assert HolderNext(w, w', s.thread, Holding(pc).value, s.ok);
  }

  lemma NextFailureStep(w: World, w': World, s: Step, pc: Pc, id: TransferId)
    requires StepAt(w, w', s, pc) && AtWork(w.threads[s.thread]) && id in w.objs && id in w'.objs
    requires !Final(w.objs[id].state) && id in w.table && Owes(w.threads[s.thread], id)
    requires pc.NextFailure?
    ensures Settled(w', s.thread, id)
  {
    var pending := w.threads[s.thread].pending;
    assert pending != [] ==> pending == [pending[0]] + pending[1..];
  }

  lemma FailureStep(w: World, w': World, s: Step, pc: Pc, id: TransferId)
    requires StepAt(w, w', s, pc) && AtWork(w.threads[s.thread]) && id in w.objs && id in w'.objs
    requires !Final(w.objs[id].state) && id in w.table && Owes(w.threads[s.thread], id)
    ensures Settled(w', s.thread, id)
  {
    if Holding(pc).Some? && !pc.Unlock? {
      HeldFailureStep(w, w', s, pc, id);
    } else if pc.NextFailure? {
      NextFailureStep(w, w', s, pc, id);
    }
  }

  lemma SettledStep(run: seq<World>, k: nat, u: ThreadId, id: TransferId)
    requires IsRun(run) && k + 1 < |run| && Settled(run[k], u, id)
    requires u in run[k].threads && AtWork(run[k].threads[u])
    ensures Settled(run[k + 1], u, id)
  {
    var s := StepOfRun(run, k);
    assert id in run[k + 1].objs && Forward(run[k].objs[id], run[k + 1].objs[id]) by {
      NextForward(run[k], run[k + 1], s, id);
    }
    if !Final(run[k].objs[id].state) {
      if s.Run? && s.thread == u {
        assert id in run[k].table by { Reachable(run, k); }
        FailureStep(run[k], run[k + 1], s, run[k].threads[u].pc, id);
      } else {
        StaysPut(run[k], run[k + 1], s, u);
      }
    }
  }

  /** Thread `u` scans at state `i` and is done at state `j`. */
  ghost predicate Scans(run: seq<World>, i: nat, j: nat, u: ThreadId) {
    && IsRun(run) && i + 1 < j < |run|
    && u in run[i].threads && (run[i].threads[u].pc.Scan? || run[i].threads[u].pc.ScanAll?)
    && (forall k :: i < k < j ==> u in run[k].threads)
    && u in run[i + 1].threads && run[i + 1].threads[u].pc == NextFailure
    && u !in run[j].threads
  }

  lemma OwnScanStep(w: World, w': World, s: Step, pc: Pc) returns (found: set<TransferId>)
    requires StepAt(w, w', s, pc) && (pc.Scan? || pc.ScanAll?) && !w.threads[s.thread].starting
    requires forall id :: id in w.objs && !Final(w.objs[id].state) ==> id in w.table
    ensures s.thread in w'.threads && Within(w'.threads[s.thread], found)
    ensures forall id :: id in found <==> Wanted(w, pc, id)
    ensures forall id :: id in found ==> Settled(w', s.thread, id)
  {
    found := set id | id in s.found;
  }

  lemma ScanStep(run: seq<World>, i: nat, j: nat, u: ThreadId) returns (found: set<TransferId>)
    requires Scans(run, i, j, u)
    ensures forall id :: id in found <==> Wanted(run[i], run[i].threads[u].pc, id)
    ensures Within(run[i + 1].threads[u], found)
    ensures forall id :: id in found ==> Settled(run[i + 1], u, id)
  {
    var s := StepOfRun(run, i);
    if !(s.Run? && s.thread == u) { StaysPut(run[i], run[i + 1], s, u); }
    assert forall id :: id in run[i].objs && !Final(run[i].objs[id].state) ==> id in run[i].table by {
      Reachable(run, i);
    }
    if run[i].threads[u].starting { OnlyStarterStarts(run, i, u); }
    found := OwnScanStep(run[i], run[i + 1], s, run[i].threads[u].pc);
  }

  lemma {:induction false} Working(run: seq<World>, i: nat, j: nat, u: ThreadId, found: set<TransferId>, k: nat)
    requires Scans(run, i, j, u) && i < k < j && Within(run[i + 1].threads[u], found)
    requires forall id :: id in found ==> Settled(run[i + 1], u, id)
    ensures Within(run[k].threads[u], found)
    ensures forall id :: id in found ==> Settled(run[k], u, id)
    decreases k
  {
    if k > i + 1 {
      Working(run, i, j, u, found, k - 1);
      WorkingStep(run, k - 1, u, found);
      forall id | id in found ensures Settled(run[k], u, id) { SettledStep(run, k - 1, u, id); }
    }
  }

  lemma WorkingStep(run: seq<World>, k: nat, u: ThreadId, found: set<TransferId>)
    requires IsRun(run) && k + 1 < |run| && u in run[k].threads && Within(run[k].threads[u], found)
    ensures u in run[k + 1].threads ==> Within(run[k + 1].threads[u], found)
  {
    var s := StepOfRun(run, k);
    if s.Run? && s.thread == u {
      WorkStep(run[k], run[k + 1], s, run[k].threads[u].pc, found);
    } else {
      StaysPut(run[k], run[k + 1], s, u);
    }
  }

  /** Detach and Close are thorough and narrow: when they are done, every transfer that the scan was after is over,
      and in between they work on those transfers only. For Detach, these are the live transfers that use the
      device's name, whichever session of the device they belong to; for Close, all live ones. */
  lemma ScanFailsExactly(run: seq<World>, i: nat, j: nat, u: ThreadId)
    requires Scans(run, i, j, u)
    ensures forall id :: Wanted(run[i], run[i].threads[u].pc, id) ==> id in run[j].objs && Final(run[j].objs[id].state)
    ensures forall k, id {:trigger Wanted(run[i], run[i].threads[u].pc, id), run[k]} ::
              i < k < j && WorksOn(run[k].threads[u].pc) == Some(id) ==> Wanted(run[i], run[i].threads[u].pc, id)
  {
    var found := ScanStep(run, i, j, u);
    forall k, id | i < k < j && WorksOn(run[k].threads[u].pc) == Some(id) ensures id in found {
      Working(run, i, j, u, found, k);
    }
    Working(run, i, j, u, found, j - 1);
    forall id | id in found ensures id in run[j].objs && Final(run[j].objs[id].state) {
      SettledStep(run, j - 1, u, id);
    }
  }

  /** When the scan of Close is done with, every transfer that was published before it is over: what Close leaves
      live was published later. */
  lemma CloseLeavesOnlyLater(run: seq<World>, i: nat, j: nat, u: ThreadId)
    requires Scans(run, i, j, u) && run[i].threads[u].pc.ScanAll?
    ensures forall id :: id in run[i].objs ==> id in run[j].objs && Final(run[j].objs[id].state)
  {
    ScanFailsExactly(run, i, j, u);
    forall id | id in run[i].objs ensures id in run[j].objs && Final(run[j].objs[id].state) {
      OnlyForward(run, i, j, id);
      assert Final(run[i].objs[id].state) || Wanted(run[i], run[i].threads[u].pc, id);
    }
  }

  // ----- Runs in which a scan meets a transfer it has little to do with

  /** Device A's first session is `other`; A has reconnected with session `src`. */
  function Reconnected(c: Cast, threads: map<ThreadId, Thread>): World {
    World(map[], {}, map[], map[A := c.src, B := c.tgt],
          map[c.other := Session(A, true), c.tgt := Session(B, false), c.src := Session(A, false)],
          threads, c.now, 0, {})
  }

  /** Thread 5 runs Detach of A's first session, and has closed it. */
  function Detaching(pc: Pc): map<ThreadId, Thread> {
    map[5 := Newcomer(pc)]
  }

  lemma FirstAttached(c: Cast)
    requires Distinct(c) && Cold(c)
    ensures Reached(World(map[], {}, map[], map[A := c.other, B := c.tgt],
                          map[c.other := Session(A, false), c.tgt := Session(B, false)], map[], c.now, 0, {}))
  {
    var w0 := World(map[], {}, map[], map[], map[], map[], c.now, 0, {});
    var w1 := w0.(devices := map[A := c.other], sessions := map[c.other := Session(A, false)]);
    var w2 := w1.(devices := map[A := c.other, B := c.tgt],
                  sessions := map[c.other := Session(A, false), c.tgt := Session(B, false)]);
    assert IsRun([w0]) && [w0][|[w0]| - 1] == w0;
    Extend(w0, w1, Attach(A, c.other));
    Extend(w1, w2, Attach(B, c.tgt));
  }

  /** The first session has been taken out of the registry and closed. */
  function Disconnected(c: Cast): World {
    World(map[], {}, map[], map[B := c.tgt], map[c.other := Session(A, true), c.tgt := Session(B, false)],
          Detaching(Scan(c.other)), c.now, 0, {})
  }

  lemma Disconnecting(c: Cast)
    requires Distinct(c) && Cold(c)
    ensures Reached(Disconnected(c))
  {
    FirstAttached(c);
    var w2 := World(map[], {}, map[], map[A := c.other, B := c.tgt],
                    map[c.other := Session(A, false), c.tgt := Session(B, false)], map[], c.now, 0, {});
    var w3 := w2.(threads := Detaching(Unregister(c.other)));
    var w4 := w3.(devices := map[B := c.tgt], threads := Detaching(CloseSession(c.other)));
    Extend(w2, w3, Spawn(5, Unregister(c.other)));
    Extend(w3, w4, Act(5));
    Extend(w4, Disconnected(c), Act(5));
  }

  lemma Reconnecting(c: Cast)
    requires Distinct(c) && Cold(c)
    ensures Reached(Reconnected(c, Detaching(Scan(c.other))))
  {
    Disconnecting(c);
    Extend(Disconnected(c), Reconnected(c, Detaching(Scan(c.other))), Attach(A, c.src));
  }

  /** Meanwhile StartTransfer publishes a transfer for the new session. */
  function Successor(c: Cast, threads: map<ThreadId, Thread>): World {
    Reconnected(c, threads).(objs := map[c.id := Fresh(c)], table := {c.id}, active := Reserved(c, Preparing),
        peak := 1)
  }

  lemma Succeeding(c: Cast)
    requires Distinct(c) && Cold(c)
    ensures Reached(Reconnected(c, Detaching(Scan(c.other))[0 := Newcomer(Publish(A, B, c.src, c.tgt, c.now))]))
  {
    Reconnecting(c);
    var threads := Detaching(Scan(c.other));
    var w0, w1 := Reconnected(c, threads), Reconnected(c, threads[0 := Newcomer(ResolveSource(A, B))]);
    var w2 := Reconnected(c, threads[0 := Newcomer(ResolveTarget(A, B, c.src))]);
    Extend(w0, w1, Spawn(0, ResolveSource(A, B)));
    Extend(w1, w2, Act(0));
    Extend(w2, Reconnected(c, threads[0 := Newcomer(Publish(A, B, c.src, c.tgt, c.now))]), Act(0));
  }

  lemma SuccessorPublished(c: Cast, threads: map<ThreadId, Thread>)
    ensures Next(Reconnected(c, threads[0 := Newcomer(Publish(A, B, c.src, c.tgt, c.now))]),
                 Successor(c, threads[0 := Starter(WantRelay(c.id, StartOp))]), Run(0, true, c.id, {}, []))
  {
    var w := Reconnected(c, threads[0 := Newcomer(Publish(A, B, c.src, c.tgt, c.now))]);
    OnlyLive(Update(w, c.id, Fresh(c)), c.id);
    assert PublishNext(w, Successor(c, threads[0 := Starter(WantRelay(c.id, StartOp))]), 0, c.id, {});
  }

  lemma SuccessorScanned(c: Cast, threads: map<ThreadId, Thread>)
    requires Distinct(c) && 5 !in threads
    ensures Next(Successor(c, threads[5 := Newcomer(Scan(c.other))]),
                 Successor(c, threads[5 := Thread(NextFailure, [c.id], Some(c.other), false)]),
                     Run(5, true, 0, {}, [c.id]))
  {
    assert Collected(Successor(c, threads[5 := Newcomer(Scan(c.other))]), Some(A), [c.id]);
  }

  /** The detach of a session that has been replaced goes on to fail a live transfer that was started with the
      replacement, which is open, and has nothing to do with the session being detached. */
  lemma SuccessorDoomed(c: Cast) returns (w: World)
    requires Distinct(c) && Cold(c)
    ensures Reached(w) && 5 in w.threads && w.threads[5].detaching == Some(c.other) && Owes(w.threads[5], c.id)
    ensures c.id in w.objs && !Final(w.objs[c.id].state) && !Refers(w.objs[c.id], c.other)
    ensures w.objs[c.id].history.src == c.src && c.src in w.sessions && !w.sessions[c.src].closed
  {
    Succeeding(c);
    var starter := map[0 := Starter(WantRelay(c.id, StartOp))];
    var w0 := Reconnected(c, Detaching(Scan(c.other))[0 := Newcomer(Publish(A, B, c.src, c.tgt, c.now))]);
    var w1 := Successor(c, Detaching(Scan(c.other))[0 := Starter(WantRelay(c.id, StartOp))]);
    w := Successor(c, starter[5 := Thread(NextFailure, [c.id], Some(c.other), false)]);
    SuccessorPublished(c, Detaching(Scan(c.other)));
    Extend(w0, w1, Run(0, true, c.id, {}, []));
    assert Detaching(Scan(c.other))[0 := Starter(WantRelay(c.id, StartOp))] == starter[5 := Newcomer(Scan(c.other))];
    SuccessorScanned(c, starter);
    Extend(w1, w, Run(5, true, 0, {}, [c.id]));
  }

  lemma ScanningNothing(c: Cast)
    ensures Next(Connected(c, Resolved(c)), Connected(c, Resolved(c)[7 := Newcomer(ScanAll)]), Spawn(7, ScanAll))
    ensures Next(Connected(c, Resolved(c)[7 := Newcomer(ScanAll)]),
            Connected(c, Resolved(c)[7 := Newcomer(NextFailure)]), Act(7))
    ensures Next(Connected(c, Resolved(c)[7 := Newcomer(NextFailure)]), Connected(c, Resolved(c)), Act(7))
  {
    assert Resolved(c)[7 := Newcomer(NextFailure)] - {7} == Resolved(c);
  }

  lemma ScannedRun(c: Cast, before: seq<World>) returns (run: seq<World>)
    requires IsRun(before) && before[|before| - 1] == Connected(c, Resolved(c))
    ensures IsRun(run) && |run| == |before| + 4
    ensures run[|before|] == Connected(c, Resolved(c)[7 := Newcomer(ScanAll)])
    ensures run[|before| + 1] == Connected(c, Resolved(c)[7 := Newcomer(NextFailure)])
    ensures run[|before| + 2] == Connected(c, Resolved(c))
    ensures run[|before| + 3] == Scene(c, Fresh(c), StarterWaits(c))
  {
    ScanningNothing(c);
    PublishingStep(c);
    var r1 := before + [Connected(c, Resolved(c)[7 := Newcomer(ScanAll)])];
    var r2 := r1 + [Connected(c, Resolved(c)[7 := Newcomer(NextFailure)])];
    var r3 := r2 + [Connected(c, Resolved(c))];
    Append(before, Connected(c, Resolved(c)[7 := Newcomer(ScanAll)]), Spawn(7, ScanAll));
    Append(r1, Connected(c, Resolved(c)[7 := Newcomer(NextFailure)]), Act(7));
    Append(r2, Connected(c, Resolved(c)), Act(7));
    Append(r3, Scene(c, Fresh(c), StarterWaits(c)), Run(0, true, c.id, {}, []));
    run := r3 + [Scene(c, Fresh(c), StarterWaits(c))];
  }

  lemma NothingScanned(run: seq<World>, c: Cast, i: nat)
    requires IsRun(run) && i + 2 < |run|
    requires run[i] == Connected(c, Resolved(c)[7 := Newcomer(ScanAll)])
    requires run[i + 1] == Connected(c, Resolved(c)[7 := Newcomer(NextFailure)])
    requires run[i + 2] == Connected(c, Resolved(c))
    ensures Scans(run, i, i + 2, 7) && run[i].threads[7].pc.ScanAll?
  {
    assert forall k :: i < k < i + 2 ==> run[k] == run[i + 1];
  }

  lemma MissedAfter(c: Cast, before: seq<World>) returns (run: seq<World>, i: nat, j: nat)
    requires IsRun(before) && before[|before| - 1] == Connected(c, Resolved(c))
    ensures Scans(run, i, j, 7) && run[i].threads[7].pc.ScanAll?
    ensures c.id in run[|run| - 1].objs && !Final(run[|run| - 1].objs[c.id].state)
  {
    run := ScannedRun(c, before);
    i, j := |before|, |before| + 2;
    NothingScanned(run, c, i);
    FreshIsLive(c);
  }

  lemma FreshIsLive(c: Cast)
    ensures var w := Scene(c, Fresh(c), StarterWaits(c)); c.id in w.objs && !Final(w.objs[c.id].state)
  {
  }

  /** The scan of Close can miss a transfer whose StartTransfer is on its way. */
  lemma CloseMayMiss(c: Cast) returns (run: seq<World>, i: nat, j: nat)
    requires Distinct(c) && Cold(c)
    ensures Scans(run, i, j, 7) && run[i].threads[7].pc.ScanAll?
    ensures c.id in run[|run| - 1].objs && !Final(run[|run| - 1].objs[c.id].state)
  {
    Resolving(c);
    var before := RunTo(Connected(c, Resolved(c)));
    run, i, j := MissedAfter(c, before);
  }
}
