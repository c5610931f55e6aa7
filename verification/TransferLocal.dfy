/** What always holds of a single transfer, what holds of it whenever its relayMu is free, what the
    owner of relayMu may rely on at each point of its code, and the proof that every step of the owner
    re-establishes all three. Nothing here mentions other threads except through `Interferes`. */
module TransferLocal {
  import opened Common
  import opened TransferModel
  import opened TransferLog
  import opened TransferEngine

  function PhaseOf(t: Transfer): Option<Phase> {
    Replay(t.history.log, t.history.src, t.history.tgt)
  }

  /** Holds of every published transfer in every reachable state. */
  ghost predicate Sound(t: Transfer, now: Clock) {
    && PhaseOf(t).Some?
    && SoundFields(t, now)
    && SoundLog(t, PhaseOf(t).value)
  }

  /** Both start messages have gone out as soon as StartTransfer has nothing left to check. */
  ghost predicate Started(h: History) {
    && (h.tgt in h.unchecked || Event(h.tgt, TargetStart) in h.log)
    && (h.src in h.unchecked || Event(h.src, SourceStart) in h.log)
  }

  ghost predicate SoundFields(t: Transfer, now: Clock) {
    var h := t.history;
    && Started(h)
    && h.src != h.tgt && t.sourceDevice != t.targetDevice
    && (t.readyClosed <==> t.state != Preparing)
    && t.source == (if Final(t.state) then None else Some(h.src))
    && t.target == (if Final(t.state) then None else Some(h.tgt))
    && (t.state == Preparing ==> !(t.sourceReady && t.targetReady))
    && (t.state == Running || t.state == Verifying || t.state == Completed ==> t.sourceReady && t.targetReady)
    && (Final(t.state) ==> t.timer == None)
    && (!Final(t.state) ==> (t.timer.Some? <==> h.expirer.None?))
    && (t.timer.Some? ==> t.timer.value <= Max(h.publishedAt, h.progressAt) + IDLE_TIMEOUT + Skew(now))
    && h.progressAt <= now.mono && now.low <= t.updatedAt - h.progressAt <= now.high
    && t.size < WORD
    && (t.state == Verifying || t.state == Completed ==>
          && t.transferred == t.size
          && h.sourceFinish.Some? && h.sourceFinish.value.size == t.size
          && Normalise(h.sourceFinish.value.digest) == t.digest && ValidDigest(t.digest))
    && (t.state == Completed ==>
          && h.targetFinish.Some? && h.targetFinish.value.size == t.size
          && Normalise(h.targetFinish.value.digest) == t.digest)
  }

  ghost predicate SoundLog(t: Transfer, p: Phase) {
    var h := t.history;
    && (t.state == Preparing ==> p == START)
    && (p.told != {} ==> t.state == Failed || t.state == Cancelled)
    && h.delivered <= |p.payloads| <= h.delivered + 1
    && t.nextSeq == h.delivered % WORD
    && Admitted(t.size, p.payloads[..h.delivered]) == Some(t.transferred) && Deliverable(p.payloads)
    && (t.state == Verifying || t.state == Completed ==> |p.payloads| == h.delivered)
  }

  /** Every peer of a failed or cancelled transfer has been told, or had its session closed. */
  ghost predicate Announced(t: Transfer, pending: seq<SessionId>) {
    var h := t.history;
    (t.state == Failed || t.state == Cancelled) && PhaseOf(t).Some? ==>
      var told := PhaseOf(t).value.told;
      && (h.src in told || h.src in h.unreachable || h.src in pending)
      && (h.tgt in told || h.tgt in h.unreachable || h.tgt in pending)
  }

  /** The target of a verifying or completed transfer has been told to commit, or had its session closed. */
  ghost predicate CommitDue(t: Transfer) {
    (t.state == Verifying || t.state == Completed) && PhaseOf(t).Some? ==>
      var p := PhaseOf(t).value;
      p.sending && (p.committed == Some(Report(t.size, t.digest)) || t.history.tgt in t.history.unreachable)
  }

  /** Holds whenever relayMu is free: no hand-over is half done. */
  ghost predicate Quiet(t: Transfer) {
    Announced(t, []) && CommitDue(t) && Settled(t)
  }

  ghost predicate Settled(t: Transfer) {
    !Final(t.state) && PhaseOf(t).Some? ==>
      var p := PhaseOf(t).value;
      && |p.payloads| == t.history.delivered
      && (t.state == Running ==> p.sending && p.committed.None?)
      && (t.state == Verifying ==> p.sending && p.committed == Some(Report(t.size, t.digest)))
  }

  /** A chunk has been handed over and its outcome is not yet recorded. */
  ghost predicate ChunkOut(t: Transfer, sequence: nat, payload: Bytes) {
    && t.state == Running && PhaseOf(t).Some?
    && var p := PhaseOf(t).value;
       && p.sending && p.committed.None?
       && |p.payloads| == t.history.delivered + 1
       && p.payloads[t.history.delivered] == payload
       && sequence == t.nextSeq && |payload| <= MAX_PAYLOAD
       && !Overflows(t.transferred, |payload|, t.size)
  }

  ghost predicate OpOk(t: Transfer, op: Op, u: ThreadId) {
    match op
    case StartOp => t.history.starter == u && t.history.unchecked == {t.history.src, t.history.tgt}
    case SourceReadyOp(_, size) => size < WORD
    case ChunkOp(_, _, payload) => |payload| <= MAX_PAYLOAD
    case SourceFinishOp(_, _, raw) => ValidDigest(Normalise(raw))
    case ExpireOp => t.history.expirer == Some(u)
    case _ => true
  }

  ghost predicate HandOk(t: Transfer, p: Phase, to: SessionId, message: Message, u: ThreadId) {
    var h := t.history;
    match message
    case TargetStart => Quiet(t) && to == h.tgt && h.starter == u && h.unchecked == {h.src, h.tgt}
    case SourceStart => Quiet(t) && to == h.src && h.starter == u && h.unchecked == {h.src}
    case SendGo => t.state == Running && to == h.src && p == START
    case Chunk(sequence, payload) =>
      && t.state == Running && to == h.tgt && p.sending && p.committed.None? && |p.payloads| == h.delivered
      && sequence == t.nextSeq && |payload| <= MAX_PAYLOAD && !Overflows(t.transferred, |payload|, t.size)
    case Commit(size, digest) =>
      && (t.state == Verifying || t.state == Completed)
      && to == h.tgt && p.sending && p.committed.None? && size == t.size && digest == t.digest
    case Cancel => false
  }

  ghost predicate SentOk(t: Transfer, p: Phase, to: SessionId, message: Message, u: ThreadId) {
    var h := t.history;
    match message
    case TargetStart => Quiet(t) && h.starter == u && h.unchecked == {h.src}
    case SourceStart => Quiet(t) && h.starter == u && h.unchecked == {}
    case SendGo => t.state == Running && p.sending && p.committed.None? && |p.payloads| == h.delivered
    case Chunk(sequence, payload) => to == h.tgt && ChunkOut(t, sequence, payload)
    case Commit(_, _) => (t.state == Verifying || t.state == Completed) && p.sending
        && p.committed == Some(Report(t.size, t.digest))
    case Cancel => false
  }

  /** The peers still to be told: each is a peer, none is told twice. */
  ghost predicate TellOk(t: Transfer, p: Phase, peers: seq<SessionId>) {
    && Final(t.state) && Announced(t, peers) && CommitDue(t)
    && (peers != [] ==> t.state == Failed || t.state == Cancelled)
    && (forall i :: 0 <= i < |peers| ==>
        (peers[i] == t.history.src || peers[i] == t.history.tgt) && peers[i] !in p.told)
    && (forall i, j :: 0 <= i < j < |peers| ==> peers[i] != peers[j])
  }

  /** What thread `u`, owning relayMu of `t`, knows at `pc`. */
  ghost predicate HolderOk(t: Transfer, pc: Pc, u: ThreadId, now: Clock) {
    && t.relay == Some(u)
    && PhaseOf(t).Some?
    && var p := PhaseOf(t).value;
       match pc
       case Region(_, op) => Quiet(t) && OpOk(t, op, u)
       case Hand(_, to, message) => HandOk(t, p, to, message, u)
       case InTransport(_, to, message) => SentOk(t, p, to, message, u)
       case ChunkSent(_, sequence, payload) => ChunkOut(t, sequence, payload)
       case FailNow(_, expired) =>
         && Announced(t, []) && CommitDue(t)
         && (expired ==>
               && t.history.expirer == Some(u)
               && (Final(t.state) || t.history.progressAt + IDLE_TIMEOUT <= now.mono + Skew(now)))
       case TellCancel(_, peers) => TellOk(t, p, peers)
       case CancelInTransport(_, peers) => TellOk(t, p, peers)
       case Unlock(_) => Quiet(t)
       case _ => false
  }

  // ----- Interference

  /** transferTargetFinish, the only handler that ends a transfer without relayMu. */
  ghost predicate Completes(t: Transfer, t': Transfer) {
    && t.state == Verifying
    && exists size, raw, now :: t' == Complete(t, size, raw, now)
  }

  /** The armed timer fires and its callback starts. */
  ghost predicate Fires(t: Transfer, t': Transfer) {
    && t.timer.Some?
    && exists v :: t' == t.(timer := None, history := t.history.(expirer := Some(v)))
  }

  /** All that other threads can do to a transfer whose relayMu is owned. */
  ghost predicate Interferes(t: Transfer, t': Transfer) {
    t' == t || Completes(t, t') || Fires(t, t')
  }

  /** The owner's knowledge survives everything other threads can do, and the passing of time. */
  lemma HolderStable(t: Transfer, t': Transfer, pc: Pc, u: ThreadId, now: Clock, now': Clock)
    requires Sound(t, now) && HolderOk(t, pc, u, now) && Interferes(t, t') && Later(now, now')
    ensures HolderOk(t', pc, u, now')
  {
    assert PhaseOf(t') == PhaseOf(t);
  }

  // ----- The owner's steps

  /** Appending a message moves the automaton. */
  lemma LoggedPhase(t: Transfer, to: SessionId, message: Message)
    requires PhaseOf(t).Some?
    ensures PhaseOf(Logged(t, to, message))
            == Advance(PhaseOf(t).value, Event(to, message), t.history.src, t.history.tgt)
  {
    ReplaySnoc(t.history.log, Event(to, message), t.history.src, t.history.tgt);
  }

  /** Handing over a message that neither carries data nor ends anything. */
  lemma StartHandLocal(t: Transfer, pc: Pc, u: ThreadId, now: Clock)
    requires pc.Hand? && (pc.message.TargetStart? || pc.message.SourceStart?) && Sound(t, now)
             && HolderOk(t, pc, u, now)
    ensures var t1 := Logged(t, pc.to, pc.message);
            Sound(t1, now) && HolderOk(t1, InTransport(pc.id, pc.to, pc.message), u, now)
  {
    LoggedPhase(t, pc.to, pc.message);
  }

  lemma ControlHandLocal(t: Transfer, pc: Pc, u: ThreadId, now: Clock)
    requires pc.Hand? && (pc.message.SendGo? || pc.message.Commit?) && Sound(t, now) && HolderOk(t, pc, u, now)
    ensures var t1 := Logged(t, pc.to, pc.message);
            Sound(t1, now) && HolderOk(t1, InTransport(pc.id, pc.to, pc.message), u, now)
  {
    LoggedPhase(t, pc.to, pc.message);
    var p := PhaseOf(t).value;
    assert pc.message.Commit? ==> p.payloads[..t.history.delivered] == p.payloads && p.told == {};
    AdmittedIsSum(t.size, p.payloads[..t.history.delivered]);
  }

  lemma ChunkHandLocal(t: Transfer, pc: Pc, u: ThreadId, now: Clock)
    requires pc.Hand? && pc.message.Chunk? && Sound(t, now) && HolderOk(t, pc, u, now)
    ensures var t1 := Logged(t, pc.to, pc.message);
            Sound(t1, now) && HolderOk(t1, InTransport(pc.id, pc.to, pc.message), u, now)
  {
    LoggedPhase(t, pc.to, pc.message);
    var p := PhaseOf(t).value;
    assert p.told == {};
    assert (p.payloads + [pc.message.payload])[..t.history.delivered] == p.payloads[..t.history.delivered];
  }

  lemma MissedLocal(t: Transfer, pc: Pc, u: ThreadId, now: Clock)
    requires pc.Hand? && Sound(t, now) && HolderOk(t, pc, u, now)
    ensures Sound(Missed(t, pc.to), now) && HolderOk(Missed(t, pc.to), FailNow(pc.id, false), u, now)
  {
    assert PhaseOf(Missed(t, pc.to)) == PhaseOf(t);
  }

  lemma HandLocal(t: Transfer, pc: Pc, u: ThreadId, listed: bool, closed: set<SessionId>, ok: bool, now: Clock)
    requires pc.Hand? && Sound(t, now) && HolderOk(t, pc, u, now)
    ensures var r := HolderStep(t, pc, listed, closed, ok, now); Sound(r.0, now) && HolderOk(r.0, r.1, u, now)
  {
    if pc.to in closed {
      MissedLocal(t, pc, u, now);
    } else {
      match pc.message
      case TargetStart => StartHandLocal(t, pc, u, now);
      case SourceStart => StartHandLocal(t, pc, u, now);
      case Chunk(_, _) => ChunkHandLocal(t, pc, u, now);
      case _ => ControlHandLocal(t, pc, u, now);
    }
  }

  lemma InTransportLocal(t: Transfer, pc: Pc, u: ThreadId, listed: bool, closed: set<SessionId>, ok: bool, now: Clock)
    requires pc.InTransport? && Sound(t, now) && HolderOk(t, pc, u, now)
    ensures var r := HolderStep(t, pc, listed, closed, ok, now); Sound(r.0, now) && HolderOk(r.0, r.1, u, now)
  {
  }

  /** The books after one more delivered chunk. */
  lemma ChunkBooks(t: Transfer, sequence: nat, payload: Bytes)
    requires PhaseOf(t).Some? && SoundLog(t, PhaseOf(t).value) && ChunkOut(t, sequence, payload)
    ensures var sent, n := PhaseOf(t).value.payloads, t.history.delivered;
            && (t.nextSeq + 1) % WORD == (n + 1) % WORD
            && Admitted(t.size, sent[..n + 1]) == Some((t.transferred + |payload|) % WORD)
  {
    var sent, n := PhaseOf(t).value.payloads, t.history.delivered;
    assert sent[..n + 1][..n] == sent[..n];
    WordSum(n, 1);
  }

  /** The recheck of line 414 cannot fail, and the books stay balanced. */
  lemma ChunkSentLocal(t: Transfer, pc: Pc, u: ThreadId, listed: bool, closed: set<SessionId>, ok: bool, now: Clock)
    requires pc.ChunkSent? && Sound(t, now) && HolderOk(t, pc, u, now) && listed
    ensures StillExpected(listed, t, pc.sequence)
    ensures var r := HolderStep(t, pc, listed, closed, ok, now); Sound(r.0, now) && HolderOk(r.0, r.1, u, now)
  {
    ChunkBooks(t, pc.sequence, pc.payload);
    var t1 := HolderStep(t, pc, listed, closed, ok, now).0;
    assert PhaseOf(t1) == PhaseOf(t);
    assert SoundFields(t1, now) && SoundLog(t1, PhaseOf(t).value);
  }

  lemma FailNowLocal(t: Transfer, pc: Pc, u: ThreadId, listed: bool, closed: set<SessionId>, ok: bool, now: Clock)
    requires pc.FailNow? && Sound(t, now) && HolderOk(t, pc, u, now)
    requires !Final(t.state) ==> listed
    ensures var r := HolderStep(t, pc, listed, closed, ok, now); Sound(r.0, now) && HolderOk(r.0, r.1, u, now)
  {
    assert PhaseOf(HolderStep(t, pc, listed, closed, ok, now).0) == PhaseOf(t);
  }

  /** Telling a peer. */
  lemma ToldLocal(t: Transfer, first: SessionId, rest: seq<SessionId>, pc: Pc, u: ThreadId, now: Clock)
    requires pc.TellCancel? && pc.peers == [first] + rest && Sound(t, now) && HolderOk(t, pc, u, now)
    ensures var t1 := Logged(t, first, Cancel); Sound(t1, now) && HolderOk(t1, CancelInTransport(pc.id, rest), u, now)
  {
    var p := PhaseOf(t).value;
    LoggedPhase(t, first, Cancel);
    var t1 := Logged(t, first, Cancel);
    var p1 := p.(told := p.told + {first});
    assert pc.peers[0] == first && forall i :: 0 <= i < |rest| ==> rest[i] == pc.peers[i + 1];
    assert PhaseOf(t1) == Some(p1);
    assert Announced(t1, rest);
    assert TellOk(t1, p1, rest);
  }

  /** Finding a peer's session closed. */
  lemma UnreachableLocal(t: Transfer, first: SessionId, rest: seq<SessionId>, pc: Pc, u: ThreadId, now: Clock)
    requires pc.TellCancel? && pc.peers == [first] + rest && Sound(t, now) && HolderOk(t, pc, u, now)
    ensures var t1 := Missed(t, first);
            Sound(t1, now) && HolderOk(t1, TellCancel(pc.id, rest), u, now)
  {
    var t1 := Missed(t, first);
    assert PhaseOf(t1) == PhaseOf(t);
    assert forall i :: 0 <= i < |rest| ==> rest[i] == pc.peers[i + 1];
    assert Announced(t1, rest);
    assert TellOk(t1, PhaseOf(t1).value, rest);
  }

  lemma TellLocal(t: Transfer, pc: Pc, u: ThreadId, listed: bool, closed: set<SessionId>, ok: bool, now: Clock)
    requires (pc.TellCancel? || pc.CancelInTransport?) && Sound(t, now) && HolderOk(t, pc, u, now)
    ensures var r := HolderStep(t, pc, listed, closed, ok, now); Sound(r.0, now) && HolderOk(r.0, r.1, u, now)
  {
    if pc.TellCancel? && pc.peers != [] {
      var first, rest := pc.peers[0], pc.peers[1..];
      assert pc.peers == [first] + rest;
      if first in closed {
        UnreachableLocal(t, first, rest, pc, u, now);
      } else {
        ToldLocal(t, first, rest, pc, u, now);
      }
    }
  }

  lemma StartLocal(t: Transfer, pc: Pc, u: ThreadId, listed: bool, now: Clock)
    requires pc.Region? && pc.op.StartOp? && Sound(t, now) && HolderOk(t, pc, u, now)
    requires !Final(t.state) ==> listed
    ensures var r := RegionStep(t, pc.id, pc.op, listed, now); Sound(r.0, now) && HolderOk(r.0, r.1, u, now)
  {
    assert PhaseOf(RegionStep(t, pc.id, pc.op, listed, now).0) == PhaseOf(t);
  }

  lemma SourceReadyLocal(t: Transfer, pc: Pc, u: ThreadId, listed: bool, now: Clock)
    requires pc.Region? && pc.op.SourceReadyOp? && Sound(t, now) && HolderOk(t, pc, u, now)
    requires !Final(t.state) ==> listed
    ensures var r := RegionStep(t, pc.id, pc.op, listed, now); Sound(r.0, now) && HolderOk(r.0, r.1, u, now)
  {
    assert PhaseOf(RegionStep(t, pc.id, pc.op, listed, now).0) == PhaseOf(t);
  }

  lemma TargetReadyLocal(t: Transfer, pc: Pc, u: ThreadId, listed: bool, now: Clock)
    requires pc.Region? && pc.op.TargetReadyOp? && Sound(t, now) && HolderOk(t, pc, u, now)
    requires !Final(t.state) ==> listed
    ensures var r := RegionStep(t, pc.id, pc.op, listed, now); Sound(r.0, now) && HolderOk(r.0, r.1, u, now)
  {
    assert PhaseOf(RegionStep(t, pc.id, pc.op, listed, now).0) == PhaseOf(t);
  }

  lemma ChunkLocal(t: Transfer, pc: Pc, u: ThreadId, listed: bool, now: Clock)
    requires pc.Region? && pc.op.ChunkOp? && Sound(t, now) && HolderOk(t, pc, u, now)
    requires !Final(t.state) ==> listed
    ensures var r := RegionStep(t, pc.id, pc.op, listed, now); Sound(r.0, now) && HolderOk(r.0, r.1, u, now)
  {
    assert PhaseOf(RegionStep(t, pc.id, pc.op, listed, now).0) == PhaseOf(t);
  }

  lemma SourceFinishLocal(t: Transfer, pc: Pc, u: ThreadId, listed: bool, now: Clock)
    requires pc.Region? && pc.op.SourceFinishOp? && Sound(t, now) && HolderOk(t, pc, u, now)
    requires !Final(t.state) ==> listed
    ensures var r := RegionStep(t, pc.id, pc.op, listed, now); Sound(r.0, now) && HolderOk(r.0, r.1, u, now)
  {
    assert PhaseOf(RegionStep(t, pc.id, pc.op, listed, now).0) == PhaseOf(t);
  }

  lemma ExpireLocal(t: Transfer, pc: Pc, u: ThreadId, listed: bool, now: Clock)
    requires pc.Region? && pc.op.ExpireOp? && Sound(t, now) && HolderOk(t, pc, u, now)
    requires !Final(t.state) ==> listed
    ensures var r := RegionStep(t, pc.id, pc.op, listed, now); Sound(r.0, now) && HolderOk(r.0, r.1, u, now)
  {
    assert PhaseOf(RegionStep(t, pc.id, pc.op, listed, now).0) == PhaseOf(t);
  }

  lemma EndLocal(t: Transfer, pc: Pc, u: ThreadId, listed: bool, now: Clock)
    requires pc.Region? && (pc.op.CancelOp? || pc.op.FailOp?) && Sound(t, now) && HolderOk(t, pc, u, now)
    requires !Final(t.state) ==> listed
    ensures var r := RegionStep(t, pc.id, pc.op, listed, now); Sound(r.0, now) && HolderOk(r.0, r.1, u, now)
  {
    assert PhaseOf(RegionStep(t, pc.id, pc.op, listed, now).0) == PhaseOf(t);
  }

  lemma RegionLocal(t: Transfer, pc: Pc, u: ThreadId, listed: bool, now: Clock)
    requires pc.Region? && Sound(t, now) && HolderOk(t, pc, u, now)
    requires !Final(t.state) ==> listed
    ensures var r := RegionStep(t, pc.id, pc.op, listed, now); Sound(r.0, now) && HolderOk(r.0, r.1, u, now)
  {
    match pc.op
    case StartOp => StartLocal(t, pc, u, listed, now);
    case SourceReadyOp(_, _) => SourceReadyLocal(t, pc, u, listed, now);
    case TargetReadyOp(_) => TargetReadyLocal(t, pc, u, listed, now);
    case ChunkOp(_, _, _) => ChunkLocal(t, pc, u, listed, now);
    case SourceFinishOp(_, _, _) => SourceFinishLocal(t, pc, u, listed, now);
    case ExpireOp => ExpireLocal(t, pc, u, listed, now);
    case _ => EndLocal(t, pc, u, listed, now);
  }

  /** Every step of the owner of relayMu keeps the transfer sound and the owner informed. */
  lemma HolderLocal(t: Transfer, pc: Pc, u: ThreadId, listed: bool, closed: set<SessionId>, ok: bool, now: Clock)
    requires Holding(pc).Some? && !pc.Unlock? && Sound(t, now) && HolderOk(t, pc, u, now)
    requires !Final(t.state) ==> listed
    ensures var r := HolderStep(t, pc, listed, closed, ok, now); Sound(r.0, now) && HolderOk(r.0, r.1, u, now)
  {
    match pc
    case Region(_, _) => RegionLocal(t, pc, u, listed, now);
    case Hand(_, _, _) => HandLocal(t, pc, u, listed, closed, ok, now);
    case InTransport(_, _, _) => InTransportLocal(t, pc, u, listed, closed, ok, now);
    case ChunkSent(_, _, _) => ChunkSentLocal(t, pc, u, listed, closed, ok, now);
    case FailNow(_, _) => FailNowLocal(t, pc, u, listed, closed, ok, now);
    case TellCancel(_, _) => TellLocal(t, pc, u, listed, closed, ok, now);
    case CancelInTransport(_, _) => TellLocal(t, pc, u, listed, closed, ok, now);
  }
}
