/** What a session that is neither peer can do to a transfer by sending messages about it: nothing, except that a
    source finish with an ill-formed digest fails the transfer whoever sends it. */
module TransferOutsiders {
  import opened Common
  import opened TransferModel
  import opened TransferEngine
  import opened TransferLocal
  import opened TransferInvariant
  import opened TransferRun
  import opened TransferTheorems
  import opened TransferOrigins
  import opened TransferScenes

  /** A device message about transfer `id` from session `from`. */
  datatype Note = Note(id: TransferId, from: SessionId)

  /** The message a handler at `pc` is working on. */
  function Carries(pc: Pc): Option<Note> {
    match pc
    case SourceFinishCheck(id, from, _, _) => Some(Note(id, from))
    case PeerFailedCheck(id, from) => Some(Note(id, from))
    case SourceCancelledCheck(id, from) => Some(Note(id, from))
    case TargetFinish(id, from, _, _) => Some(Note(id, from))
    case Lookup(id, op) => if Sender(op).Some? then Some(Note(id, Sender(op).value)) else None
    case WantRelay(id, op) => if Sender(op).Some? then Some(Note(id, Sender(op).value)) else None
    case Region(id, op) => if Sender(op).Some? then Some(Note(id, Sender(op).value)) else None
    case _ => None
  }

  /** The branch of the source finish that does not look at the sender. */
  predicate IllFormedFinish(pc: Pc) {
    pc.SourceFinishCheck? && !ValidDigest(Normalise(pc.raw))
  }

  /** Session `n.from` is neither peer of transfer `n.id`. */
  ghost predicate Outside(w: World, n: Note) {
    n.id in w.objs ==> n.from != w.objs[n.id].history.src && n.from != w.objs[n.id].history.tgt
  }

  /** No transfer changes, but for the owner of its relayMu; in particular no message is sent about any. */
  ghost predicate Untouched(w: World, w': World) {
    forall x {:trigger w'.objs[x]} :: x in w.objs ==>
        x in w'.objs && w'.objs[x] == w.objs[x].(relay := w'.objs[x].relay)
  }

  /** Where a handler of the message can stand. */
  predicate Along(pc: Pc, n: Note) {
    (Carries(pc) == Some(n) && !IllFormedFinish(pc)) || pc == Unlock(n.id) || pc == NextFailure
  }

  /** The thread is gone, or still handles the message. */
  ghost predicate StaysAlong(w': World, u: ThreadId, n: Note) {
    u in w'.threads ==> Along(w'.threads[u].pc, n) && w'.threads[u] == Newcomer(w'.threads[u].pc)
  }

  lemma CheckStep(w: World, w': World, s: Step, pc: Pc, n: Note)
    requires StepAt(w, w', s, pc) && w.threads[s.thread] == Newcomer(pc) && Carries(pc) == Some(n) && Outside(w, n)
    requires !IllFormedFinish(pc) && (pc.SourceFinishCheck? || pc.PeerFailedCheck? || pc.SourceCancelledCheck?)
    requires n.id in w.objs ==> Sound(w.objs[n.id], w.now)
    ensures w'.objs == w.objs && StaysAlong(w', s.thread, n)
  {
  }

  lemma TargetFinishStep(w: World, w': World, s: Step, pc: Pc, n: Note)
    requires StepAt(w, w', s, pc) && w.threads[s.thread] == Newcomer(pc) && Carries(pc) == Some(n) && Outside(w, n)
    requires pc.TargetFinish? && (n.id in w.objs ==> Sound(w.objs[n.id], w.now))
    ensures w'.objs == w.objs && StaysAlong(w', s.thread, n)
  {
  }

  lemma LookupStep(w: World, w': World, s: Step, pc: Pc, n: Note)
    requires StepAt(w, w', s, pc) && w.threads[s.thread] == Newcomer(pc)
    requires (Carries(pc) == Some(n) && pc.Lookup?) || pc == NextFailure
    ensures w'.objs == w.objs && StaysAlong(w', s.thread, n)
  {
  }

  lemma LockStep(w: World, w': World, s: Step, pc: Pc, n: Note)
    requires StepAt(w, w', s, pc) && w.threads[s.thread] == Newcomer(pc)
    requires (Carries(pc) == Some(n) && pc.WantRelay?) || pc == Unlock(n.id)
    ensures Untouched(w, w') && StaysAlong(w', s.thread, n)
  {
  }

  lemma RegionIgnores(t: Transfer, op: Op, n: Note, listed: bool, now: Clock)
    requires Sound(t, now) && Sender(op) == Some(n.from) && n.from != t.history.src && n.from != t.history.tgt
    ensures RegionStep(t, n.id, op, listed, now) == (t, Unlock(n.id))
  {
  }

  lemma RegionLeaves(w: World, w': World, s: Step, pc: Pc, n: Note)
    requires StepAt(w, w', s, pc) && w.threads[s.thread] == Newcomer(pc) && Carries(pc) == Some(n) && Outside(w, n)
    requires pc.Region? && n.id in w.objs && Sound(w.objs[n.id], w.now)
    ensures Untouched(w, w') && StaysAlong(w', s.thread, n)
  {
    assert HolderNext(w, w', s.thread, n.id, s.ok);
    RegionIgnores(w.objs[n.id], pc.op, n, n.id in w.table, w.now);
  }

  lemma AlongStep(w: World, w': World, s: Step, pc: Pc, n: Note)
    requires StepAt(w, w', s, pc) && w.threads[s.thread] == Newcomer(pc) && Along(pc, n) && Outside(w, n)
    requires ThreadOk(w, s.thread) && (n.id in w.objs ==> Sound(w.objs[n.id], w.now))
    ensures Untouched(w, w') && StaysAlong(w', s.thread, n)
  {
    match pc
    case TargetFinish(_, _, _, _) => TargetFinishStep(w, w', s, pc, n);
    case Lookup(_, _) => LookupStep(w, w', s, pc, n);
    case NextFailure => LookupStep(w, w', s, pc, n);
    case WantRelay(_, _) => LockStep(w, w', s, pc, n);
    case Unlock(_) => LockStep(w, w', s, pc, n);
    case Region(_, _) => RegionLeaves(w, w', s, pc, n);
    case _ => CheckStep(w, w', s, pc, n);
  }

  /** From state `i` to state `j`, thread `u` handles the message with which it started at `pc`, and the sender is
      neither peer of the transfer. */
  ghost predicate Handles(run: seq<World>, i: nat, j: nat, u: ThreadId, pc: Pc) {
    && IsRun(run) && i <= j < |run| && Carries(pc).Some?
    && u in run[i].threads && run[i].threads[u] == Newcomer(pc)
    && (forall k :: i <= k <= j ==> u in run[k].threads)
    && (forall k :: i <= k <= j ==> Outside(run[k], Carries(pc).value))
  }

  lemma {:induction false} StillAlong(run: seq<World>, i: nat, j: nat, u: ThreadId, pc: Pc)
    requires Handles(run, i, j, u, pc) && !IllFormedFinish(pc)
    ensures Along(run[j].threads[u].pc, Carries(pc).value) && run[j].threads[u] == Newcomer(run[j].threads[u].pc)
    decreases j
  {
    if i < j {
      StillAlong(run, i, j - 1, u, pc);
      StepAlong(run, j - 1, u, Carries(pc).value);
    }
  }

  lemma StepAlong(run: seq<World>, i: nat, u: ThreadId, n: Note)
    requires IsRun(run) && i + 1 < |run| && u in run[i].threads && u in run[i + 1].threads
    requires run[i].threads[u] == Newcomer(run[i].threads[u].pc) && Along(run[i].threads[u].pc, n) && Outside(run[i], n)
    ensures StaysAlong(run[i + 1], u, n)
  {
    var s := StepOfRun(run, i);
    if s.Run? && s.thread == u {
      OwnStepAlong(run, i, s, u, n);
    } else {
      OtherThreads(run[i], run[i + 1], s, u);
    }
  }

  lemma OwnStepAlong(run: seq<World>, i: nat, s: Step, u: ThreadId, n: Note)
    requires IsRun(run) && i + 1 < |run| && Next(run[i], run[i + 1], s) && s.Run? && s.thread == u
             && u in run[i].threads
    requires run[i].threads[u] == Newcomer(run[i].threads[u].pc) && Along(run[i].threads[u].pc, n) && Outside(run[i], n)
    ensures Untouched(run[i], run[i + 1]) && StaysAlong(run[i + 1], u, n)
  {
    assert ThreadOk(run[i], u) && (n.id in run[i].objs ==> Sound(run[i].objs[n.id], run[i].now)) by {
      Reachable(run, i);
    }
    AlongStep(run[i], run[i + 1], s, run[i].threads[u].pc, n);
  }

  /** The handler, at state `j`, changes a transfer or sends a message about one. */
  ghost predicate Disturbs(run: seq<World>, i: nat, j: nat, u: ThreadId, pc: Pc) {
    && Handles(run, i, j, u, pc) && j + 1 < |run| && !Untouched(run[j], run[j + 1])
    && exists s :: Next(run[j], run[j + 1], s) && s.Run? && s.thread == u
  }

  /** A message of a session that is neither peer, in any run and however its handler is interleaved, leaves every
      transfer alone, unless it is a source finish with an ill-formed digest. */
  lemma OutsiderHarmless(run: seq<World>, i: nat, j: nat, u: ThreadId, pc: Pc)
    requires Handles(run, i, j, u, pc) && !IllFormedFinish(pc)
    ensures !Disturbs(run, i, j, u, pc)
  {
    if Disturbs(run, i, j, u, pc) {
      var s :| Next(run[j], run[j + 1], s) && s.Run? && s.thread == u;
      StillAlong(run, i, j, u, pc);
      OwnStepAlong(run, j, s, u, Carries(pc).value);
    }
  }

  // ----- The exception

  /** The worlds in which the handler of an outsider's ill-formed finish stands at `pc`, and the one it leads to. */
  function Failing(c: Cast, pc: Pc): World {
    Scene(c, if Holding(pc).Some? then Fresh(c).(relay := Some(1)) else Fresh(c), StarterWaits(c)[1 := Newcomer(pc)])
  }

  function Over(c: Cast): World {
    Scene(c, Finish(Fresh(c).(relay := Some(1)), Failed, c.now),
        StarterWaits(c)[1 := Newcomer(TellCancel(c.id, [c.src, c.tgt]))])
  }

  lemma ComingIn(c: Cast, pc: Pc)
    requires Entry(pc) && IllFormedFinish(pc) && pc.id == c.id
    ensures Next(Scene(c, Fresh(c), StarterWaits(c)), Failing(c, pc), Spawn(1, pc))
    ensures Next(Failing(c, pc), Failing(c, Lookup(c.id, FailOp)), Act(1))
  {
  }

  lemma LookingUp(c: Cast)
    ensures Next(Failing(c, Lookup(c.id, FailOp)), Failing(c, WantRelay(c.id, FailOp)), Act(1))
  {
  }

  lemma Taking(c: Cast)
    ensures Next(Failing(c, WantRelay(c.id, FailOp)), Failing(c, Region(c.id, FailOp)), Act(1))
  {
  }

  lemma FailingAtLast(c: Cast)
    ensures Next(Failing(c, Region(c.id, FailOp)), Over(c), Act(1))
            && !Untouched(Failing(c, Region(c.id, FailOp)), Over(c))
  {
    var t := Fresh(c).(relay := Some(1));
    var t1 := Finish(t, Failed, c.now);
    assert Peers(t) == [c.src, c.tgt];
    OwnerChanges(c, t, StarterWaits(c), 1, Newcomer(Region(c.id, FailOp)), t1, TellCancel(c.id, [c.src, c.tgt]));
    OwnerRuns(Failing(c, Region(c.id, FailOp)), Over(c), 1, c.id);
    assert Over(c).objs[c.id].state == Failed;
  }

  /** The five worlds that follow publication. */
  lemma FailingRun(c: Cast, pc: Pc, before: seq<World>) returns (run: seq<World>)
    requires IsRun(before) && before[|before| - 1] == Scene(c, Fresh(c), StarterWaits(c))
    requires Entry(pc) && IllFormedFinish(pc) && pc.id == c.id
    ensures IsRun(run) && |run| == |before| + 5
    ensures run[|before|] == Failing(c, pc) && run[|before| + 1] == Failing(c, Lookup(c.id, FailOp))
    ensures run[|before| + 2] == Failing(c, WantRelay(c.id, FailOp))
    ensures run[|before| + 3] == Failing(c, Region(c.id, FailOp)) && run[|before| + 4] == Over(c)
  {
    ComingIn(c, pc);
    LookingUp(c);
    Taking(c);
    FailingAtLast(c);
    var r1 := before + [Failing(c, pc)];
    var r2 := r1 + [Failing(c, Lookup(c.id, FailOp))];
    var r3 := r2 + [Failing(c, WantRelay(c.id, FailOp))];
    var r4 := r3 + [Failing(c, Region(c.id, FailOp))];
    Append(before, Failing(c, pc), Spawn(1, pc));
    Append(r1, Failing(c, Lookup(c.id, FailOp)), Act(1));
    Append(r2, Failing(c, WantRelay(c.id, FailOp)), Act(1));
    Append(r3, Failing(c, Region(c.id, FailOp)), Act(1));
    Append(r4, Over(c), Act(1));
    run := r4 + [Over(c)];
  }

  /** In all of them the handler is there, and the sender is neither peer. */
  lemma FailingOutside(c: Cast, at: Pc, n: Note)
    requires Distinct(c) && n == Note(c.id, c.other)
    ensures 1 in Failing(c, at).threads && Failing(c, at).threads[1] == Newcomer(at) && Outside(Failing(c, at), n)
  {
  }

  lemma FailingHandled(run: seq<World>, n: nat, c: Cast, pc: Pc)
    requires IsRun(run) && n + 3 < |run| && Distinct(c) && Carries(pc) == Some(Note(c.id, c.other))
    requires run[n] == Failing(c, pc) && run[n + 1] == Failing(c, Lookup(c.id, FailOp))
    requires run[n + 2] == Failing(c, WantRelay(c.id, FailOp)) && run[n + 3] == Failing(c, Region(c.id, FailOp))
    ensures Handles(run, n, n + 3, 1, pc)
  {
    var note := Note(c.id, c.other);
    FailingOutside(c, pc, note);
    FailingOutside(c, Lookup(c.id, FailOp), note);
    FailingOutside(c, WantRelay(c.id, FailOp), note);
    FailingOutside(c, Region(c.id, FailOp), note);
    forall k | n <= k <= n + 3 ensures 1 in run[k].threads && Outside(run[k], note) {
      assert k == n || k == n + 1 || k == n + 2 || k == n + 3;
    }
  }

  lemma DisturbsAtLast(run: seq<World>, i: nat, j: nat, c: Cast, pc: Pc)
    requires Handles(run, i, j, 1, pc) && j + 1 < |run|
    requires run[j] == Failing(c, Region(c.id, FailOp)) && run[j + 1] == Over(c)
    ensures Disturbs(run, i, j, 1, pc)
  {
    FailingAtLast(c);
    assert Next(run[j], run[j + 1], Act(1));
  }

  /** An outsider's finish with an ill-formed digest does fail a live transfer. */
  lemma OutsiderFails(pc: Pc) returns (run: seq<World>, i: nat, j: nat)
    requires Entry(pc) && IllFormedFinish(pc)
    ensures Disturbs(run, i, j, 1, pc)
    ensures pc.id in run[j].objs && !Final(run[j].objs[pc.id].state)
    ensures pc.id in run[j + 1].objs && run[j + 1].objs[pc.id].state == Failed
  {
    var c := Cast(pc.id, pc.from + 1, pc.from + 2, pc.from, Reading(0, 0, 0, 0));
    Publishing(c);
    var before := RunTo(Scene(c, Fresh(c), StarterWaits(c)));
    run := FailingRun(c, pc, before);
    i, j := |before|, |before| + 3;
    assert Disturbs(run, i, j, 1, pc) by {
      FailingHandled(run, i, c, pc);
      DisturbsAtLast(run, i, j, c, pc);
    }
  }

  /** A message a device can send disturbs, in some run, a transfer of which its sender is neither peer, exactly
      when it is a source finish with an ill-formed digest. */
  lemma OutsidersDisturbWhen(pc: Pc)
    requires Entry(pc) && Carries(pc).Some?
    ensures (exists run, i, j, u :: Disturbs(run, i, j, u, pc)) <==> IllFormedFinish(pc)
  {
    if IllFormedFinish(pc) {
      var run, i, j := OutsiderFails(pc);
    } else {
      forall run, i, j, u | Disturbs(run, i, j, u, pc) ensures false {
        OutsiderHarmless(run, i, j, u, pc);
      }
    }
  }
}
