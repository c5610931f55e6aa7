/** The transfer engine with one HTTP target: the engine's hand-over of a chunk to session `x`, and its return, are
    steps of the one-slot handshake. The two models run side by side and meet in these two steps. */
module HttpRelay {
  import opened Common
  import opened TransferModel
  import opened TransferLog
  import opened TransferEngine
  import opened TransferLocal
  import opened TransferInvariant
  import opened TransferRun
  import opened TransferTheorems
  import opened TransferOrigins
  import HttpChunk

  type Link = HttpChunk.Link

  datatype Joint = Joint(w: World, l: Link)

  /** The thread of the handshake that carries engine thread `u`; the device's requests have odd numbers. */
  function Port(u: ThreadId): nat {
    2 * u
  }

  /** A chunk message on its way to session `x`. */
  predicate Carries(pc: Pc, x: SessionId) {
    (pc.Hand? || pc.InTransport?) && pc.to == x && pc.message.Chunk?
  }

  function Asked(pc: Pc): HttpChunk.Request
    requires (pc.Hand? || pc.InTransport?) && pc.message.Chunk?
  {
    HttpChunk.Request(pc.id, pc.message.sequence)
  }

  datatype JointStep =
    | Engine(s: Step)                          // any step of the engine but the two below
    | Enter(u: ThreadId)                       // sendTransferChunk takes sendMu of an open session
    | Wire(step: HttpChunk.Step)               // the handshake, the device and other senders
    | Back(u: ThreadId, ok: bool)              // sendTransferChunk returns

  /** The engine's own steps: it does not hand a chunk to `x` while `x` is open, nor return from such a hand-over. */
  ghost predicate Apart(w: World, s: Step, x: SessionId) {
    s.Run? && s.thread in w.threads && Carries(w.threads[s.thread].pc, x) ==>
      w.threads[s.thread].pc.Hand? && x in Closed(w)
  }

  /** Which steps of the handshake happen on their own. */
  ghost predicate Free(l: Link, s: HttpChunk.Step) {
    match s
    case Spawn(v, pc) => v % 2 == 1 && !pc.WantSend?
    case Detach => false
    case CloseTransport => true
    case Run(v, _, _) => v in l.threads && (v % 2 == 0 ==> !l.threads[v].Return? && !l.threads[v].Refused?)
  }

  /** The transport's view of Session.done follows the engine's. */
  ghost function Follow(l: Link, w: World, x: SessionId): Link {
    l.(done := x in Closed(w))
  }

  ghost predicate Next2(a: Joint, b: Joint, j: JointStep, x: SessionId) {
    match j
    case Engine(s) => Next(a.w, b.w, s) && Apart(a.w, s, x) && b.l == Follow(a.l, b.w, x)
    case Wire(step) => b.w == a.w && HttpChunk.Next(a.l, b.l, step) && Free(a.l, step)
    case Enter(u) =>
      && u in a.w.threads && Carries(a.w.threads[u].pc, x) && a.w.threads[u].pc.Hand? && x !in Closed(a.w)
      && Next(a.w, b.w, Run(u, true, 0, {}, []))
      && Port(u) !in a.l.threads && a.l.sendMu == None
      && b.l == Entered(a.l, u, a.w.threads[u].pc)
    case Back(u, ok) =>
      && u in a.w.threads && Carries(a.w.threads[u].pc, x) && a.w.threads[u].pc.InTransport?
      && Next(a.w, b.w, Run(u, ok, 0, {}, []))
      && Port(u) in a.l.threads
      && (a.l.threads[Port(u)].Return? || a.l.threads[Port(u)].Refused?)
      && ok == (a.l.threads[Port(u)].Return? && a.l.threads[Port(u)].why == HttpChunk.Accepted)
      && HttpChunk.Next(a.l, b.l, HttpChunk.Run(Port(u), HttpChunk.Normally, 0))
  }

  /** A sender that has come in and taken sendMu. */
  function Entered(l: Link, u: ThreadId, pc: Pc): Link
    requires (pc.Hand? || pc.InTransport?) && pc.message.Chunk?
  {
    HttpChunk.Goto(l, Port(u), HttpChunk.Place(Asked(pc), pc.message.payload)).(sendMu := Some(Port(u)))
  }

  ghost predicate Linked2(a: Joint, b: Joint, x: SessionId) {
    exists j :: Next2(a, b, j, x)
  }

  ghost predicate IsRun2(run: seq<Joint>, x: SessionId) {
    && run != [] && Init(run[0].w)
    && run[0].l == HttpChunk.Link(None, None, map[], map[], false, false)
    && forall i, j {:trigger Linked2(run[i], run[j], x)} :: 0 <= i && i + 1 == j < |run| ==> Linked2(run[i], run[j], x)
  }

  // ----- The coupling

  /** Some chunk object with this request and payload has been accepted. */
  ghost predicate Accepted(l: Link, id: TransferId, sequence: nat, payload: Bytes) {
    exists k :: k in l.chunks && IsAccepted(l.chunks[k], id, sequence, payload)
  }

  ghost predicate IsAccepted(c: HttpChunk.Chunk, id: TransferId, sequence: nat, payload: Bytes) {
    c.request == HttpChunk.Request(id, sequence) && c.payload == payload && c.acceptedBy.Some?
  }

  /** The handshake's sender works on the engine thread's chunk. */
  ghost predicate Works(l: Link, v: nat, request: HttpChunk.Request, payload: Bytes) {
    && v in l.threads
    && match l.threads[v]
       case Place(r, p) => r == request && p == payload
       case Announce(r, k) => r == request && k in l.chunks && l.chunks[k].payload == payload
       case Await(r, k) => r == request && k in l.chunks && l.chunks[k].payload == payload
       case Clear(r, k, _) => r == request && k in l.chunks && l.chunks[k].payload == payload
       case Return(r, k, _) => r == request && k in l.chunks && l.chunks[k].payload == payload
       case Refused => true
       case _ => false
  }

  ghost predicate InHand(w: World, l: Link, x: SessionId, u: ThreadId)
    requires u in w.threads
  {
    var pc := w.threads[u].pc;
    && (Carries(pc, x) && pc.InTransport? ==> Works(l, Port(u), Asked(pc), pc.message.payload))
    && (pc.ChunkSent? && pc.id in w.objs && w.objs[pc.id].history.tgt == x ==>
        Accepted(l, pc.id, pc.sequence, pc.payload))
  }

  /** Every chunk counted as delivered to `x` has been accepted. */
  ghost predicate Counted(w: World, l: Link, x: SessionId, id: TransferId)
    requires id in w.objs
  {
    var h := w.objs[id].history;
    h.tgt == x ==> forall n: nat :: n < h.delivered && n < |Payloads(h.log)| ==>
        Accepted(l, id, n % WORD, Payloads(h.log)[n])
  }

  ghost predicate Coupled(a: Joint, x: SessionId) {
    && Inv(a.w) && HttpChunk.Inv(a.l)
    && (forall u {:trigger InHand(a.w, a.l, x, u)} :: u in a.w.threads ==> InHand(a.w, a.l, x, u))
    && (forall id {:trigger Counted(a.w, a.l, x, id)} :: id in a.w.objs ==> Counted(a.w, a.l, x, id))
  }

  lemma StillAccepted(l: Link, l': Link, id: TransferId, sequence: nat, payload: Bytes)
    requires HttpChunk.ChunksGrow(l, l') && Accepted(l, id, sequence, payload)
    ensures Accepted(l', id, sequence, payload)
  {
    var k :| k in l.chunks && IsAccepted(l.chunks[k], id, sequence, payload);
    assert k in l'.chunks && IsAccepted(l'.chunks[k], id, sequence, payload);
  }

  lemma StillCounted(w: World, l: Link, l': Link, x: SessionId, id: TransferId)
    requires HttpChunk.ChunksGrow(l, l') && id in w.objs && Counted(w, l, x, id)
    ensures Counted(w, l', x, id)
  {
    var h := w.objs[id].history;
    forall n: nat | h.tgt == x && n < h.delivered && n < |Payloads(h.log)|
      ensures Accepted(l', id, n % WORD, Payloads(h.log)[n])
    {
      StillAccepted(l, l', id, n % WORD, Payloads(h.log)[n]);
    }
  }

  // ----- What one step of the engine does to chunks

  lemma HolderDelivers(t: Transfer, pc: Pc, u: ThreadId, listed: bool, closed: set<SessionId>, ok: bool, now: Clock)
    requires Holding(pc).Some? && !pc.Unlock? && Sound(t, now) && HolderOk(t, pc, u, now)
    ensures var t' := HolderStep(t, pc, listed, closed, ok, now).0;
            t'.history.delivered == t.history.delivered
                || (pc.ChunkSent? && t'.history.delivered == t.history.delivered + 1)
  {
    if pc.Region? { RegionDelivers(t, pc, listed, now); }
  }

  lemma RegionDelivers(t: Transfer, pc: Pc, listed: bool, now: Clock)
    requires pc.Region?
    ensures RegionStep(t, pc.id, pc.op, listed, now).0.history.delivered == t.history.delivered
  {
  }

  /** A step counts at most one more chunk, the one its thread has sent. */
  ghost predicate Counts(w: World, w': World, s: Step, id: TransferId)
    requires id in w.objs && id in w'.objs
  {
    var h, h' := w.objs[id].history, w'.objs[id].history;
    || h'.delivered == h.delivered
    || (s.Run? && s.thread in w.threads && w.threads[s.thread].pc.ChunkSent? && w.threads[s.thread].pc.id == id
        && h'.delivered == h.delivered + 1 && h.delivered < |Payloads(h.log)|
        && w.threads[s.thread].pc.sequence == h.delivered % WORD
        && w.threads[s.thread].pc.payload == Payloads(h.log)[h.delivered])
  }

  lemma ChunkSentKnows(t: Transfer, pc: Pc, u: ThreadId, now: Clock)
    requires pc.ChunkSent? && Sound(t, now) && HolderOk(t, pc, u, now)
    ensures var h := t.history;
            && h.delivered < |Payloads(h.log)| && pc.sequence == h.delivered % WORD
            && pc.payload == Payloads(h.log)[h.delivered]
  {
    PhasePayloads(t.history.log, t.history.src, t.history.tgt);
  }

  lemma HeldCounts(w: World, w': World, s: Step, pc: Pc, id: TransferId)
    requires StepAt(w, w', s, pc) && Holding(pc).Some? && !pc.Unlock? && ThreadOk(w, s.thread)
    requires id in w.objs && Sound(w.objs[id], w.now)
    ensures id in w'.objs && Counts(w, w', s, id)
  {
    assert HolderNext(w, w', s.thread, Holding(pc).value, s.ok);
    if Holding(pc) == Some(id) {
      HolderDelivers(w.objs[id], pc, s.thread, id in w.table, Closed(w), s.ok, w.now);
      if pc.ChunkSent? { ChunkSentKnows(w.objs[id], pc, s.thread, w.now); }
    }
  }

  lemma FreeCounts(w: World, w': World, s: Step, pc: Pc, id: TransferId)
    requires StepAt(w, w', s, pc) && (Holding(pc) == None || pc.Unlock?) && id in w.objs
    ensures id in w'.objs && w'.objs[id].history.delivered == w.objs[id].history.delivered
  {
    if pc.Publish? {
      PublishForward(w, w', s, pc, id);
    } else if pc.TargetFinish? {
      if w'.objs != w.objs {
        assert w'.objs == w.objs[pc.id := Complete(w.objs[pc.id], pc.size, pc.raw, w.now)];
      }
    } else if pc.WantRelay? || pc.Unlock? {
      LockForward(w, w', s, pc, id);
    } else {
      BystanderStep(w, w', s, pc);
    }
  }

  lemma StepCounts(w: World, w': World, s: Step, id: TransferId)
    requires TransfersSound(w) && ThreadsOk(w) && Next(w, w', s) && id in w.objs
    ensures id in w'.objs && Counts(w, w', s, id)
  {
    if s.Run? {
      var pc := w.threads[s.thread].pc;
      if Holding(pc).Some? && !pc.Unlock? {
        assert ThreadOk(w, s.thread) && Sound(w.objs[id], w.now);
        HeldCounts(w, w', s, pc, id);
      } else {
        FreeCounts(w, w', s, pc, id);
      }
    }
  }

  /** Where a thread that has a chunk out, or has just sent one, comes from. */
  ghost predicate CameBy(w: World, w': World, s: Step, v: ThreadId)
    requires v in w'.threads
  {
    var pc' := w'.threads[v].pc;
    || (v in w.threads && w.threads[v] == w'.threads[v] && !(s.Run? && s.thread == v))
    || (v in w.threads && s.Run? && s.thread == v && pc'.InTransport?
        && w.threads[v].pc == Hand(pc'.id, pc'.to, pc'.message) && pc'.to !in Closed(w))
    || (v in w.threads && s.Run? && s.thread == v && pc'.ChunkSent? && s.ok && w.threads[v].pc.InTransport?
        && w.threads[v].pc.id == pc'.id && w.threads[v].pc.message == Chunk(pc'.sequence, pc'.payload))
  }

  lemma HolderCameBy(t: Transfer, pc: Pc, listed: bool, closed: set<SessionId>, ok: bool, now: Clock)
    requires Holding(pc).Some? && !pc.Unlock?
    ensures var next := HolderStep(t, pc, listed, closed, ok, now).1;
            && (next.InTransport? ==> pc == Hand(next.id, next.to, next.message) && next.to !in closed)
            && (next.ChunkSent? ==>
                  ok && pc.InTransport? && pc.id == next.id && pc.message == Chunk(next.sequence, next.payload))
  {
  }

  lemma OwnCameBy(w: World, w': World, s: Step, pc: Pc)
    requires StepAt(w, w', s, pc) && s.thread in w'.threads
    requires w'.threads[s.thread].pc.InTransport? || w'.threads[s.thread].pc.ChunkSent?
    ensures CameBy(w, w', s, s.thread)
  {
    if Holding(pc).Some? && !pc.Unlock? {
      var id := Holding(pc).value;
      assert HolderNext(w, w', s.thread, id, s.ok);
      HolderCameBy(w.objs[id], pc, id in w.table, Closed(w), s.ok, w.now);
    } else {
      FreeHandsNothing(w, w', s, pc);
    }
  }

  lemma ThreadCameBy(w: World, w': World, s: Step, v: ThreadId)
    requires Next(w, w', s) && v in w'.threads
    requires w'.threads[v].pc.InTransport? || w'.threads[v].pc.ChunkSent?
    ensures CameBy(w, w', s, v)
  {
    if s.Run? && s.thread == v {
      OwnCameBy(w, w', s, w.threads[v].pc);
    } else if s.Run? {
      var pc := w.threads[s.thread].pc;
      assert MovesOnlyItself(w, w', s.thread) by {
        if Holding(pc).Some? && !pc.Unlock? { HeldStep(w, w', s, pc); } else { FreeHandsNothing(w, w', s, pc); }
      }
    }
  }

  // ----- Preservation

  /** The counted chunks after a step of the engine; `l'` keeps all that `l` has accepted. */
  lemma CountedStep(w: World, w': World, s: Step, l: Link, l': Link, x: SessionId, id: TransferId)
    requires TransfersSound(w) && ThreadsOk(w) && Next(w, w', s) && HttpChunk.ChunksGrow(l, l') && id in w'.objs
    requires id in w.objs ==> Counted(w, l, x, id)
    requires s.Run? && s.thread in w.threads ==> InHand(w, l, x, s.thread)
    ensures Counted(w', l', x, id)
  {
    if id in w.objs {
      StepCounts(w, w', s, id);
      StepAppends(w, w', s, id);
      NextForward(w, w', s, id);
      assert w.objs[id].history.delivered <= |Payloads(w.objs[id].history.log)| by { DeliveredAreSent(w, id); }
      KnownCounted(w, w', s, l, l', x, id);
    } else {
      NewDeliversNothing(w, w', s, id);
    }
  }

  lemma DeliveredAreSent(w: World, id: TransferId)
    requires TransfersSound(w) && id in w.objs
    ensures w.objs[id].history.delivered <= |Payloads(w.objs[id].history.log)|
  {
    var h := w.objs[id].history;
    assert Sound(w.objs[id], w.now);
    PhasePayloads(h.log, h.src, h.tgt);
  }

  lemma NewDeliversNothing(w: World, w': World, s: Step, id: TransferId)
    requires Next(w, w', s) && id !in w.objs && id in w'.objs
    ensures w'.objs[id].history.log == []
  {
    NewLogEmpty(w, w', s, id);
  }

  lemma KnownCounted(w: World, w': World, s: Step, l: Link, l': Link, x: SessionId, id: TransferId)
    requires id in w.objs && id in w'.objs && Counts(w, w', s, id) && Appends(w, w', s, id)
    requires w'.objs[id].history.tgt == w.objs[id].history.tgt
    requires HttpChunk.ChunksGrow(l, l') && Counted(w, l, x, id)
    requires w.objs[id].history.delivered <= |Payloads(w.objs[id].history.log)|
    requires s.Run? && s.thread in w.threads ==> InHand(w, l, x, s.thread)
    ensures Counted(w', l', x, id)
  {
    var h, h' := w.objs[id].history, w'.objs[id].history;
    GrownPayloads(h.log, h'.log);
    forall n: nat | h'.tgt == x && n < h'.delivered && n < |Payloads(h'.log)|
      ensures Accepted(l', id, n % WORD, Payloads(h'.log)[n])
    {
      if n < h.delivered {
        StillAccepted(l, l', id, n % WORD, Payloads(h.log)[n]);
      } else {
        StillAccepted(l, l', id, n % WORD, Payloads(h.log)[n]);
      }
    }
  }

  lemma GrownPayloads(log: seq<Event>, log': seq<Event>)
    requires log' == log || exists e :: log' == log + [e]
    ensures Payloads(log) <= Payloads(log')
  {
    if log' != log {
      var e :| log' == log + [e];
      PayloadsSnoc(log, e);
    }
  }

  lemma GrowRefl(l: Link, l': Link)
    requires l'.chunks == l.chunks
    ensures HttpChunk.ChunksGrow(l, l')
  {
  }

  lemma SameWorks(l: Link, l': Link, v: nat, request: HttpChunk.Request, payload: Bytes)
    requires HttpChunk.ChunksGrow(l, l') && Works(l, v, request, payload)
    requires v in l'.threads && l'.threads[v] == l.threads[v]
    ensures Works(l', v, request, payload)
  {
  }

  lemma SameTarget(w: World, w': World, s: Step, v: ThreadId)
    requires TransfersSound(w) && ThreadsOk(w) && Next(w, w', s)
    requires v in w.threads && w.threads[v].pc.ChunkSent?
    ensures var id := w.threads[v].pc.id;
            id in w.objs && id in w'.objs && w'.objs[id].history.tgt == w.objs[id].history.tgt
  {
    assert ThreadOk(w, v);
    NextForward(w, w', s, w.threads[v].pc.id);
  }

  /** A thread that did not move still has in hand what it had. */
  lemma SameInHand(w: World, w': World, s: Step, l: Link, l': Link, x: SessionId, v: ThreadId)
    requires TransfersSound(w) && ThreadsOk(w) && Next(w, w', s) && HttpChunk.ChunksGrow(l, l')
    requires v in w.threads && v in w'.threads && w'.threads[v] == w.threads[v] && InHand(w, l, x, v)
    requires Port(v) in l.threads ==> Port(v) in l'.threads && l'.threads[Port(v)] == l.threads[Port(v)]
    ensures InHand(w', l', x, v)
  {
    var pc := w.threads[v].pc;
    if pc.ChunkSent? {
      assert w'.objs[pc.id].history.tgt == w.objs[pc.id].history.tgt by { SameTarget(w, w', s, v); }
      if w.objs[pc.id].history.tgt == x { StillAccepted(l, l', pc.id, pc.sequence, pc.payload); }
    } else if Carries(pc, x) && pc.InTransport? {
      SameWorks(l, l', Port(v), Asked(pc), pc.message.payload);
    }
  }

  lemma AllCounted(a: Joint, b: Joint, s: Step, x: SessionId)
    requires Coupled(a, x) && Next(a.w, b.w, s) && HttpChunk.ChunksGrow(a.l, b.l)
    ensures forall id {:trigger Counted(b.w, b.l, x, id)} :: id in b.w.objs ==> Counted(b.w, b.l, x, id)
  {
    forall id | id in b.w.objs ensures Counted(b.w, b.l, x, id) {
      if id in a.w.objs { assert Counted(a.w, a.l, x, id); }
      if s.Run? && s.thread in a.w.threads { assert InHand(a.w, a.l, x, s.thread); }
      CountedStep(a.w, b.w, s, a.l, b.l, x, id);
    }
  }

  /** The target of the chunk a thread has out is the session it was handed to. */
  lemma OutToTarget(w: World, v: ThreadId)
    requires ThreadsOk(w) && v in w.threads && w.threads[v].pc.InTransport? && w.threads[v].pc.message.Chunk?
    ensures w.threads[v].pc.id in w.objs && w.objs[w.threads[v].pc.id].history.tgt == w.threads[v].pc.to
  {
    assert ThreadOk(w, v);
  }

  lemma EngineInHand(a: Joint, b: Joint, s: Step, x: SessionId, v: ThreadId)
    requires Coupled(a, x) && Next2(a, b, Engine(s), x) && v in b.w.threads
    ensures InHand(b.w, b.l, x, v)
  {
    var pc := b.w.threads[v].pc;
    if pc.InTransport? || pc.ChunkSent? {
      ThreadCameBy(a.w, b.w, s, v);
      if v in a.w.threads && a.w.threads[v] == b.w.threads[v] {
        assert InHand(a.w, a.l, x, v);
        GrowRefl(a.l, b.l);
        SameInHand(a.w, b.w, s, a.l, b.l, x, v);
      } else if pc.ChunkSent? {
        OutToTarget(a.w, v);
        NextForward(a.w, b.w, s, pc.id);
      }
    }
  }

  lemma FollowInv(l: Link, w: World, x: SessionId)
    requires HttpChunk.Inv(l)
    ensures HttpChunk.Inv(Follow(l, w, x))
  {
    forall u | u in l.threads ensures HttpChunk.PcOk(Follow(l, w, x), u) { assert HttpChunk.PcOk(l, u); }
  }

  lemma EngineCouples(a: Joint, b: Joint, s: Step, x: SessionId)
    requires Coupled(a, x) && Next2(a, b, Engine(s), x)
    ensures Coupled(b, x)
  {
    assert Inv(b.w) by { NextInv(a.w, b.w, s); }
    assert HttpChunk.Inv(b.l) by { FollowInv(a.l, b.w, x); }
    forall v | v in b.w.threads ensures InHand(b.w, b.l, x, v) { EngineInHand(a, b, s, x, v); }
    GrowRefl(a.l, b.l);
    AllCounted(a, b, s, x);
  }

  lemma EnteredInv(l: Link, u: ThreadId, pc: Pc)
    requires HttpChunk.Inv(l) && Port(u) !in l.threads && l.sendMu == None
    requires (pc.Hand? || pc.InTransport?) && pc.message.Chunk?
    ensures HttpChunk.Inv(Entered(l, u, pc))
  {
    forall v | v in Entered(l, u, pc).threads ensures HttpChunk.PcOk(Entered(l, u, pc), v) {
      if v != Port(u) { assert HttpChunk.PcOk(l, v); }
    }
  }

  lemma EnterInHand(a: Joint, b: Joint, u: ThreadId, x: SessionId, v: ThreadId)
    requires Coupled(a, x) && Next2(a, b, Enter(u), x) && v in b.w.threads
    ensures InHand(b.w, b.l, x, v)
  {
    var pc := b.w.threads[v].pc;
    var s := Run(u, true, 0, {}, []);
    if pc.InTransport? || pc.ChunkSent? {
      ThreadCameBy(a.w, b.w, s, v);
      if v != u {
        assert InHand(a.w, a.l, x, v) && Port(v) != Port(u);
        GrowRefl(a.l, b.l);
        SameInHand(a.w, b.w, s, a.l, b.l, x, v);
      }
    }
  }

  lemma EnterCouples(a: Joint, b: Joint, u: ThreadId, x: SessionId)
    requires Coupled(a, x) && Next2(a, b, Enter(u), x)
    ensures Coupled(b, x)
  {
    var s := Run(u, true, 0, {}, []);
    assert Inv(b.w) by { NextInv(a.w, b.w, s); }
    assert HttpChunk.Inv(b.l) by { EnteredInv(a.l, u, a.w.threads[u].pc); }
    forall v | v in b.w.threads ensures InHand(b.w, b.l, x, v) { EnterInHand(a, b, u, x, v); }
    GrowRefl(a.l, b.l);
    AllCounted(a, b, s, x);
  }

  /** No step of the handshake takes back a chunk or its acceptance. */
  lemma WireGrows(l: Link, l': Link, s: HttpChunk.Step)
    requires HttpChunk.Inv(l) && HttpChunk.Next(l, l', s)
    ensures HttpChunk.ChunksGrow(l, l')
  {
    if s.Run? {
      assert HttpChunk.PcOk(l, s.u);
      if HttpChunk.Sends(l.threads[s.u]) {
        HttpChunk.SenderChunks(l, l', s.u, s.how, s.newChunk);
      } else {
        HttpChunk.DeviceChunks(l, l', s.u, s.how);
      }
    }
  }

  lemma OwnWorks(l: Link, l': Link, v: nat, how: HttpChunk.Happens, k: nat, request: HttpChunk.Request, payload: Bytes)
    requires HttpChunk.Next(l, l', HttpChunk.Run(v, how, k)) && HttpChunk.PcOk(l, v)
    requires Works(l, v, request, payload) && !l.threads[v].Return? && !l.threads[v].Refused?
    ensures Works(l', v, request, payload)
  {
  }

  lemma OtherStays(l: Link, l': Link, s: HttpChunk.Step, v: nat)
    requires HttpChunk.Next(l, l', s) && v in l.threads && !(s.Run? && s.u == v)
    ensures v in l'.threads && l'.threads[v] == l.threads[v]
  {
  }

  lemma WireInHand(a: Joint, b: Joint, s: HttpChunk.Step, x: SessionId, v: ThreadId)
    requires Coupled(a, x) && Next2(a, b, Wire(s), x) && v in b.w.threads
    ensures InHand(b.w, b.l, x, v)
  {
    var pc := b.w.threads[v].pc;
    assert InHand(a.w, a.l, x, v);
    WireGrows(a.l, b.l, s);
    if pc.ChunkSent? && pc.id in a.w.objs && a.w.objs[pc.id].history.tgt == x {
      StillAccepted(a.l, b.l, pc.id, pc.sequence, pc.payload);
    }
    if Carries(pc, x) && pc.InTransport? {
      if s.Run? && s.u == Port(v) {
        assert HttpChunk.PcOk(a.l, Port(v));
        OwnWorks(a.l, b.l, Port(v), s.how, s.newChunk, Asked(pc), pc.message.payload);
      } else {
        OtherStays(a.l, b.l, s, Port(v));
      }
    }
  }

  lemma WireCouples(a: Joint, b: Joint, s: HttpChunk.Step, x: SessionId)
    requires Coupled(a, x) && Next2(a, b, Wire(s), x)
    ensures Coupled(b, x)
  {
    assert HttpChunk.Inv(b.l) by { HttpChunk.NextInv(a.l, b.l, s); }
    forall v | v in b.w.threads ensures InHand(b.w, b.l, x, v) { WireInHand(a, b, s, x, v); }
    assert HttpChunk.ChunksGrow(a.l, b.l) by { WireGrows(a.l, b.l, s); }
    forall id | id in b.w.objs ensures Counted(b.w, b.l, x, id) {
      assert Counted(a.w, a.l, x, id);
      StillCounted(b.w, a.l, b.l, x, id);
    }
  }

  /** A send that is about to report success has been accepted. */
  lemma ReturnAccepted(l: Link, v: nat, request: HttpChunk.Request, payload: Bytes)
    requires HttpChunk.Inv(l) && Works(l, v, request, payload)
    requires l.threads[v].Return? && l.threads[v].why == HttpChunk.Accepted
    ensures Accepted(l, request.transfer, request.sequence, payload)
  {
    assert HttpChunk.PcOk(l, v);
    assert IsAccepted(l.chunks[l.threads[v].chunk], request.transfer, request.sequence, payload);
  }

  lemma LeaveInHand(a: Joint, b: Joint, u: ThreadId, ok: bool, x: SessionId, v: ThreadId)
    requires Coupled(a, x) && Next2(a, b, Back(u, ok), x) && v in b.w.threads
    ensures InHand(b.w, b.l, x, v)
  {
    var pc := b.w.threads[v].pc;
    var s := Run(u, ok, 0, {}, []);
    WireGrows(a.l, b.l, HttpChunk.Run(Port(u), HttpChunk.Normally, 0));
    if pc.InTransport? || pc.ChunkSent? {
      ThreadCameBy(a.w, b.w, s, v);
      assert InHand(a.w, a.l, x, v);
      if v != u {
        if Port(v) in a.l.threads { OtherStays(a.l, b.l, HttpChunk.Run(Port(u), HttpChunk.Normally, 0), Port(v)); }
        SameInHand(a.w, b.w, s, a.l, b.l, x, v);
      } else {
        var was := a.w.threads[u].pc;
        ReturnAccepted(a.l, Port(u), Asked(was), was.message.payload);
        StillAccepted(a.l, b.l, was.id, was.message.sequence, was.message.payload);
      }
    }
  }

  lemma LeaveCouples(a: Joint, b: Joint, u: ThreadId, ok: bool, x: SessionId)
    requires Coupled(a, x) && Next2(a, b, Back(u, ok), x)
    ensures Coupled(b, x)
  {
    var s := Run(u, ok, 0, {}, []);
    var step := HttpChunk.Run(Port(u), HttpChunk.Normally, 0);
    assert Inv(b.w) by { NextInv(a.w, b.w, s); }
    assert HttpChunk.Inv(b.l) by { HttpChunk.NextInv(a.l, b.l, step); }
    forall v | v in b.w.threads ensures InHand(b.w, b.l, x, v) { LeaveInHand(a, b, u, ok, x, v); }
    assert HttpChunk.ChunksGrow(a.l, b.l) by { WireGrows(a.l, b.l, step); }
    AllCounted(a, b, s, x);
  }

  lemma JointCouples(a: Joint, b: Joint, x: SessionId)
    requires Coupled(a, x) && Linked2(a, b, x)
    ensures Coupled(b, x)
  {
    var j :| Next2(a, b, j, x);
    match j
    case Engine(s) => EngineCouples(a, b, s, x);
    case Enter(u) => EnterCouples(a, b, u, x);
    case Wire(s) => WireCouples(a, b, s, x);
    case Back(u, ok) => LeaveCouples(a, b, u, ok, x);
  }

  lemma {:induction false} AlwaysCoupled(run: seq<Joint>, i: nat, x: SessionId)
    requires IsRun2(run, x) && i < |run|
    ensures Coupled(run[i], x)
  {
    if i > 0 {
      AlwaysCoupled(run, i - 1, x);
      JointCouples(run[i - 1], run[i], x);
    }
  }

  /** Every chunk that the engine counts as delivered to an HTTP target was accepted by an acknowledgement that named
      its transfer and its number, put into the channel of the chunk object that carried its payload. */
  lemma DeliveredWasAcknowledged(run: seq<Joint>, i: nat, x: SessionId, id: TransferId, n: nat)
    requires IsRun2(run, x) && i < |run| && id in run[i].w.objs && run[i].w.objs[id].history.tgt == x
    requires n < run[i].w.objs[id].history.delivered
    ensures n < |Payloads(run[i].w.objs[id].history.log)|
    ensures exists k :: k in run[i].l.chunks &&
              var c := run[i].l.chunks[k];
              && c.payload == Payloads(run[i].w.objs[id].history.log)[n]
              && c.request == HttpChunk.Request(id, n % WORD) && c.acceptedBy == Some(HttpChunk.Request(id, n % WORD))
  {
    AlwaysCoupled(run, i, x);
    var w, l := run[i].w, run[i].l;
    DeliveredAreSent(w, id);
    assert Counted(w, l, x, id);
    var payload := Payloads(w.objs[id].history.log)[n];
    assert Accepted(l, id, n % WORD, payload);
    var k :| k in l.chunks && IsAccepted(l.chunks[k], id, n % WORD, payload);
    assert HttpChunk.ChunkOk(l.chunks[k]);
  }

  /** When the handshake returns, the relay goes on to record the chunk exactly if the device accepted it, and to
      fail the transfer otherwise. */
  lemma RelayDecides(run: seq<Joint>, i: nat, x: SessionId, u: ThreadId, ok: bool)
    requires IsRun2(run, x) && i + 1 < |run| && Next2(run[i], run[i + 1], Back(u, ok), x)
    ensures u in run[i + 1].w.threads
    ensures var pc, port := run[i].w.threads[u].pc, run[i].l.threads[Port(u)];
            run[i + 1].w.threads[u].pc ==
            if port.Return? && port.why == HttpChunk.Accepted
            then ChunkSent(pc.id, pc.message.sequence, pc.message.payload) else FailNow(pc.id, false)
  {
    BackSteps(run[i], run[i + 1], x, u, ok);
  }

  lemma BackSteps(a: Joint, b: Joint, x: SessionId, u: ThreadId, ok: bool)
    requires Next2(a, b, Back(u, ok), x)
    ensures u in b.w.threads
    ensures b.w.threads[u].pc ==
            if ok then ChunkSent(a.w.threads[u].pc.id, a.w.threads[u].pc.message.sequence,
                                 a.w.threads[u].pc.message.payload)
            else FailNow(a.w.threads[u].pc.id, false)
  {
  }
}
