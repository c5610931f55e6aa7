/** Building blocks for particular runs of the engine: what one step adds to a run that has led to a world with
    one transfer. Every session stays open and every send succeeds. */
module TransferScenes {
  import opened Common
  import opened TransferModel
  import opened TransferEngine

  /** Some run leads to `w`. */
  ghost predicate Reached(w: World) {
    exists run :: IsRun(run) && run[|run| - 1] == w
  }

  lemma Append(run: seq<World>, w': World, s: Step)
    requires IsRun(run) && Next(run[|run| - 1], w', s)
    ensures IsRun(run + [w'])
  {
    var longer := run + [w'];
    forall i, j | 0 <= i && i + 1 == j < |longer| ensures Linked(longer[i], longer[j]) {
      if j < |run| { assert Linked(run[i], run[j]); } else { assert Next(longer[i], longer[j], s); }
    }
  }

  lemma Extend(w: World, w': World, s: Step)
    requires Reached(w) && Next(w, w', s)
    ensures Reached(w')
  {
    var run :| IsRun(run) && run[|run| - 1] == w;
    Append(run, w', s);
    assert (run + [w'])[|run + [w']| - 1] == w';
  }

  lemma RunTo(w: World) returns (run: seq<World>)
    requires Reached(w)
    ensures IsRun(run) && run[|run| - 1] == w
  {
    run :| IsRun(run) && run[|run| - 1] == w;
  }

  const A := Device("a")
  const B := Device("b")
  const C := Device("c")

  /** The transfer, the sessions of its source A and its target B, the session of a third device C, and the clock. */
  datatype Cast = Cast(id: TransferId, src: SessionId, tgt: SessionId, other: SessionId, now: Clock)

  predicate Distinct(c: Cast) {
    c.src != c.tgt && c.src != c.other && c.tgt != c.other
  }

  /** The clock of a new engine. */
  predicate Cold(c: Cast) {
    c.now.mono == 0 && c.now.offset == 0 && c.now.low == 0 && c.now.high == 0
  }

  lemma SomeCast() returns (c: Cast)
    ensures Distinct(c) && Cold(c)
  {
    c := Cast(0, 0, 1, 2, Reading(0, 0, 0, 0));
  }

  /** All three devices attached. */
  function Connected(c: Cast, threads: map<ThreadId, Thread>): World {
    World(map[], {}, map[], map[A := c.src, B := c.tgt, C := c.other],
          map[c.src := Session(A, false), c.tgt := Session(B, false), c.other := Session(C, false)],
          threads, c.now, 0, {})
  }

  function Reserved(c: Cast, s: State): map<Device, TransferId> {
    if Final(s) then map[] else map[A := c.id, B := c.id]
  }

  /** The transfer published. */
  function Scene(c: Cast, t: Transfer, threads: map<ThreadId, Thread>): World {
    Connected(c, threads).(objs := map[c.id := t], table := {c.id}, active := Reserved(c, t.state), peak := 1)
  }

  function Act(u: ThreadId): Step {
    Run(u, true, 0, {}, [])
  }

  // ----- Up to publication

  lemma Attaching(c: Cast)
    requires Distinct(c) && Cold(c)
    ensures Reached(Connected(c, map[]))
  {
    var w0 := World(map[], {}, map[], map[], map[], map[], c.now, 0, {});
    var w1 := w0.(devices := map[A := c.src], sessions := map[c.src := Session(A, false)]);
    var w2 := w1.(devices := map[A := c.src, B := c.tgt],
                  sessions := map[c.src := Session(A, false), c.tgt := Session(B, false)]);
    assert IsRun([w0]);
    assert [w0][|[w0]| - 1] == w0;
    Extend(w0, w1, Attach(A, c.src));
    Extend(w1, w2, Attach(B, c.tgt));
    Extend(w2, Connected(c, map[]), Attach(C, c.other));
  }

  function Newcomer(pc: Pc): Thread {
    Thread(pc, [], None, false)
  }

  function Starter(pc: Pc): Thread {
    Thread(pc, [], None, true)
  }

  /** StartTransfer has found both sessions. */
  function Resolved(c: Cast): map<ThreadId, Thread> {
    map[0 := Newcomer(Publish(A, B, c.src, c.tgt, c.now))]
  }

  lemma Resolving(c: Cast)
    requires Distinct(c) && Cold(c)
    ensures Reached(Connected(c, Resolved(c)))
  {
    Attaching(c);
    var w0 := Connected(c, map[]);
    var w1 := Connected(c, map[0 := Newcomer(ResolveSource(A, B))]);
    var w2 := Connected(c, map[0 := Newcomer(ResolveTarget(A, B, c.src))]);
    Extend(w0, w1, Spawn(0, ResolveSource(A, B)));
    Extend(w1, w2, Act(0));
    Extend(w2, Connected(c, Resolved(c)), Act(0));
  }

  /** StartTransfer has published the transfer and not yet taken its relayMu. */
  function StarterWaits(c: Cast): map<ThreadId, Thread> {
    map[0 := Starter(WantRelay(c.id, StartOp))]
  }

  function Fresh(c: Cast): Transfer {
    Created(A, B, c.src, c.tgt, 0, c.now, c.now)
  }

  lemma OnlyLive(w: World, id: TransferId)
    requires w.objs.Keys == {id} && !Final(w.objs[id].state)
    ensures Live(w) == {id}
  {
  }

  lemma PublishingStep(c: Cast)
    ensures Next(Connected(c, Resolved(c)),
            Scene(c, Fresh(c), StarterWaits(c)),
                 Run(0, true, c.id, {}, []))
  {
    var w := Connected(c, Resolved(c));
    OnlyLive(Update(w, c.id, Fresh(c)), c.id);
    assert PublishNext(w, Scene(c, Fresh(c), StarterWaits(c)), 0, c.id, {});
  }

  /** The transfer is published and its StartTransfer about to take relayMu. */
  lemma Publishing(c: Cast)
    requires Distinct(c) && Cold(c)
    ensures Reached(Scene(c, Fresh(c), StarterWaits(c)))
  {
    Resolving(c);
    PublishingStep(c);
    Extend(Connected(c, Resolved(c)), Scene(c, Fresh(c), StarterWaits(c)),
           Run(0, true, c.id, {}, []));
  }

  // ----- One step of one thread

  lemma Enters(c: Cast, t: Transfer, threads: map<ThreadId, Thread>, u: ThreadId, pc: Pc)
    requires Reached(Scene(c, t, threads)) && u !in threads && Entry(pc) && !pc.Unregister?
    ensures Reached(Scene(c, t, threads[u := Newcomer(pc)]))
  {
    Extend(Scene(c, t, threads), Scene(c, t, threads[u := Newcomer(pc)]), Spawn(u, pc));
  }

  lemma Finds(c: Cast, t: Transfer, threads: map<ThreadId, Thread>, u: ThreadId, op: Op)
    requires Reached(Scene(c, t, threads[u := Newcomer(Lookup(c.id, op))]))
    ensures Reached(Scene(c, t, threads[u := Newcomer(WantRelay(c.id, op))]))
  {
    Extend(Scene(c, t, threads[u := Newcomer(Lookup(c.id, op))]),
        Scene(c, t, threads[u := Newcomer(WantRelay(c.id, op))]), Act(u));
  }

  lemma Takes(c: Cast, t: Transfer, threads: map<ThreadId, Thread>, u: ThreadId, op: Op, th: Thread)
    requires th.pc == WantRelay(c.id, op) && t.relay == None && Reached(Scene(c, t, threads[u := th]))
    ensures Reached(Scene(c, t.(relay := Some(u)), threads[u := th.(pc := Region(c.id, op))]))
  {
    Extend(Scene(c, t, threads[u := th]), Scene(c, t.(relay := Some(u)), threads[u := th.(pc := Region(c.id, op))]),
        Act(u));
  }

  /** The reservations go with the end of the transfer. */
  lemma Releases(c: Cast, t: Transfer)
    requires t.sourceDevice == A && t.targetDevice == B && !Final(t.state)
    ensures ReleaseDevices(Reserved(c, t.state), c.id, t) == map[]
  {
  }

  lemma OwnerRuns(w: World, w': World, u: ThreadId, id: TransferId)
    requires w.table <= w.objs.Keys && u in w.threads && id in w.objs
    requires Holding(w.threads[u].pc) == Some(id) && !w.threads[u].pc.Unlock? && HolderNext(w, w', u, id, true)
    ensures Next(w, w', Act(u))
  {
  }

  /** The reservations after a step that takes `t` to `t1`. */
  lemma ReservedAfter(c: Cast, t: Transfer, t1: Transfer)
    requires t.sourceDevice == A && t.targetDevice == B && (Final(t.state) ==> Final(t1.state))
    ensures (if Final(t1.state) && !Final(t.state) then ReleaseDevices(Reserved(c, t.state), c.id, t)
            else Reserved(c, t.state))
            == Reserved(c, t1.state)
  {
    if Final(t1.state) && !Final(t.state) { Releases(c, t); }
  }

  lemma OwnerChanges(c: Cast, t: Transfer, threads: map<ThreadId, Thread>, u: ThreadId, th: Thread, t1: Transfer,
      pc1: Pc)
    requires Holding(th.pc) == Some(c.id) && !th.pc.Unlock? && HolderStep(t, th.pc, true, {}, true, c.now) == (t1, pc1)
    requires t.sourceDevice == A && t.targetDevice == B && (Final(t.state) ==> Final(t1.state))
    ensures HolderNext(Scene(c, t, threads[u := th]), Scene(c, t1, threads[u := th.(pc := pc1)]), u, c.id, true)
  {
    assert Closed(Scene(c, t, threads[u := th])) == {};
    ReservedAfter(c, t, t1);
  }

  /** A step of the owner of relayMu. */
  lemma Acts(c: Cast, t: Transfer, threads: map<ThreadId, Thread>, u: ThreadId, th: Thread, t1: Transfer, pc1: Pc)
    requires Reached(Scene(c, t, threads[u := th])) && Holding(th.pc) == Some(c.id) && !th.pc.Unlock?
    requires HolderStep(t, th.pc, true, {}, true, c.now) == (t1, pc1)
    requires t.sourceDevice == A && t.targetDevice == B && (Final(t.state) ==> Final(t1.state))
    ensures Reached(Scene(c, t1, threads[u := th.(pc := pc1)]))
  {
    var w, w' := Scene(c, t, threads[u := th]), Scene(c, t1, threads[u := th.(pc := pc1)]);
    assert Next(w, w', Act(u)) by {
      OwnerChanges(c, t, threads, u, th, t1, pc1);
      OwnerRuns(w, w', u, c.id);
    }
    Extend(w, w', Act(u));
  }

  lemma Unlocks(c: Cast, t: Transfer, threads: map<ThreadId, Thread>, u: ThreadId)
    requires Reached(Scene(c, t, threads[u := Newcomer(Unlock(c.id))]))
    ensures Reached(Scene(c, t.(relay := None), threads[u := Newcomer(NextFailure)]))
  {
    Extend(Scene(c, t, threads[u := Newcomer(Unlock(c.id))]),
           Scene(c, t.(relay := None), threads[u := Newcomer(NextFailure)]), Act(u));
  }

  lemma Ends(c: Cast, t: Transfer, threads: map<ThreadId, Thread>, u: ThreadId)
    requires Reached(Scene(c, t, threads[u := Newcomer(NextFailure)])) && u !in threads
    ensures Reached(Scene(c, t, threads))
  {
    assert threads[u := Newcomer(NextFailure)] - {u} == threads;
    Extend(Scene(c, t, threads[u := Newcomer(NextFailure)]), Scene(c, t, threads), Act(u));
  }

  lemma Leaves(c: Cast, t: Transfer, threads: map<ThreadId, Thread>, u: ThreadId)
    requires Reached(Scene(c, t, threads[u := Newcomer(Unlock(c.id))])) && u !in threads
    ensures Reached(Scene(c, t.(relay := None), threads))
  {
    Unlocks(c, t, threads, u);
    Ends(c, t.(relay := None), threads, u);
  }

  lemma StarterLeaves(c: Cast, t: Transfer, threads: map<ThreadId, Thread>)
    requires Reached(Scene(c, t, threads[0 := Starter(Unlock(c.id))]))
    ensures Reached(Scene(c, t.(relay := None), threads[0 := Starter(AwaitReady(c.id))]))
  {
    Extend(Scene(c, t, threads[0 := Starter(Unlock(c.id))]),
           Scene(c, t.(relay := None), threads[0 := Starter(AwaitReady(c.id))]), Act(0));
  }

  /** A handler comes in and takes a free relayMu. */
  lemma Begins(c: Cast, t: Transfer, threads: map<ThreadId, Thread>, u: ThreadId, op: Op)
    requires Reached(Scene(c, t, threads)) && u !in threads && t.relay == None && Entry(Lookup(c.id, op))
    ensures Reached(Scene(c, t.(relay := Some(u)), threads[u := Newcomer(Region(c.id, op))]))
  {
    Enters(c, t, threads, u, Lookup(c.id, op));
    Finds(c, t, threads, u, op);
    Takes(c, t, threads, u, op, Newcomer(WantRelay(c.id, op)));
  }

  /** A source finish comes in; an ill-formed digest makes its handler a failure of the transfer. */
  lemma Checks(c: Cast, t: Transfer, threads: map<ThreadId, Thread>, u: ThreadId, from: SessionId, size: nat,
      raw: string)
    requires Reached(Scene(c, t, threads)) && u !in threads && t.relay == None
    ensures var op := if ValidDigest(Normalise(raw)) then SourceFinishOp(from, size, raw) else FailOp;
            Reached(Scene(c, t.(relay := Some(u)), threads[u := Newcomer(Region(c.id, op))]))
  {
    var op := if ValidDigest(Normalise(raw)) then SourceFinishOp(from, size, raw) else FailOp;
    var check := SourceFinishCheck(c.id, from, size, raw);
    Enters(c, t, threads, u, check);
    Extend(Scene(c, t, threads[u := Newcomer(check)]), Scene(c, t, threads[u := Newcomer(Lookup(c.id, op))]), Act(u));
    Finds(c, t, threads, u, op);
    Takes(c, t, threads, u, op, Newcomer(WantRelay(c.id, op)));
  }

  /** The target's finish arrives and completes the transfer, whoever owns relayMu. */
  lemma TargetFinishes(c: Cast, t: Transfer, threads: map<ThreadId, Thread>, u: ThreadId, raw: string)
    requires Reached(Scene(c, t, threads)) && u !in threads
    requires t.state == Verifying && t.target == Some(c.tgt) && Normalise(raw) == t.digest
    requires t.sourceDevice == A && t.targetDevice == B
    ensures Reached(Scene(c, Complete(t, t.size, raw, c.now), threads))
  {
    var pc := TargetFinish(c.id, c.tgt, t.size, raw);
    var t1 := Complete(t, t.size, raw, c.now);
    Enters(c, t, threads, u, pc);
    assert TargetFinishNext(Scene(c, t, threads[u := Newcomer(pc)]),
        Scene(c, t1, threads[u := Newcomer(NextFailure)]), u) by {
      Releases(c, t);
    }
    Extend(Scene(c, t, threads[u := Newcomer(pc)]), Scene(c, t1, threads[u := Newcomer(NextFailure)]), Act(u));
    Ends(c, t1, threads, u);
  }
}
