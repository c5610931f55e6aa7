/** What a handler has decided it carries through: once a thread is to fail a transfer, the transfer is over by the
    time the thread is done, whatever happens in between. */
module TransferEndings {
  import opened Common
  import opened TransferModel
  import opened TransferEngine
  import opened TransferInvariant
  import opened TransferTheorems
  import opened TransferStarters
  import opened TransferDigest
  import opened TransferDecisions
  import opened TransferScans

  /** Thread `u` is at work from state `i` on and done at state `j`. */
  ghost predicate Finishes(run: seq<World>, i: nat, j: nat, u: ThreadId) {
    IsRun(run) && i < j < |run| && (forall k :: i <= k < j ==> u in run[k].threads) && u !in run[j].threads
  }

  // ----- A failure that has been decided on

  lemma {:induction false} StillOwed(run: seq<World>, i: nat, j: nat, u: ThreadId, id: TransferId,
                                     found: set<TransferId>, k: nat)
    requires Finishes(run, i, j, u) && i <= k < j && Within(run[i].threads[u], found) && Settled(run[i], u, id)
    ensures Within(run[k].threads[u], found) && Settled(run[k], u, id)
    decreases k
  {
    if k > i {
      StillOwed(run, i, j, u, id, found, k - 1);
      WorkingStep(run, k - 1, u, found);
      SettledStep(run, k - 1, u, id);
    }
  }

  /** A handler on its way to fail a transfer does not end before the transfer is over. */
  lemma FailureIsCertain(run: seq<World>, i: nat, j: nat, u: ThreadId, id: TransferId)
    requires Finishes(run, i, j, u) && FailingFor(run[i].threads[u].pc) == Some(id) && id in run[i].objs
    ensures id in run[j].objs && Final(run[j].objs[id].state)
  {
    var th := run[i].threads[u];
    if th.starting { OnlyStarterStarts(run, i, u); }
    var found := (set x | x in th.pending) + {id};
    assert Within(th, found) && Settled(run[i], u, id);
    StillOwed(run, i, j, u, id, found, j - 1);
    SettledStep(run, j - 1, u, id);
  }

  /** The thread is about to end the transfer in its next step. */
  ghost predicate EndsNext(w: World, u: ThreadId, id: TransferId) {
    && id in w.objs
    && (Final(w.objs[id].state)
        || (u in w.threads && w.threads[u].pc.FailNow? && w.threads[u].pc.id == id))
  }

  lemma EndsNextStep(run: seq<World>, k: nat, u: ThreadId, id: TransferId)
    requires IsRun(run) && k + 1 < |run| && u in run[k].threads && EndsNext(run[k], u, id)
    ensures EndsNext(run[k + 1], u, id)
  {
    var s := StepOfRun(run, k);
    NextForward(run[k], run[k + 1], s, id);
    if !Final(run[k].objs[id].state) {
      if s.Run? && s.thread == u {
        var pc := run[k].threads[u].pc;
        HolderTurns(run, k, s, id);
        var t, t', pc' :| Turns(run, k, s, pc, id, t, t', pc');
        EndDecides(run, k, s, pc, id, t, t', pc');
      } else {
        StaysPut(run[k], run[k + 1], s, u);
      }
    }
  }

  /** A handler that has met a bad chunk, a bad finish or a failed send does not end before the transfer is over. */
  lemma {:induction false} FailNowIsCertain(run: seq<World>, i: nat, j: nat, u: ThreadId, id: TransferId)
    requires Finishes(run, i, j, u) && EndsNext(run[i], u, id)
    ensures id in run[j].objs && Final(run[j].objs[id].state)
    decreases j - i
  {
    EndsNextStep(run, i, u, id);
    if i + 1 < j { FailNowIsCertain(run, i + 1, j, u, id); }
  }

  // ----- From the message to the end

  /** A report that the protocol answers with the failure of the transfer. */
  ghost predicate BadReport(t: Transfer, pc: Pc, id: TransferId) {
    match pc
    case TargetFinish(x, from, size, raw) =>
      x == id && t.state == Verifying && from == t.history.tgt && !(size == t.size && Spells(raw, t.digest))
    case SourceFinishCheck(x, _, _, raw) => x == id && !(exists d :: LowerHexText(d) && Spells(raw, d))
    case PeerFailedCheck(x, from) => x == id && (from == t.history.src || from == t.history.tgt)
    case SourceCancelledCheck(x, from) => x == id && from == t.history.src
    case _ => false
  }

  lemma BadReportFails(run: seq<World>, i: nat, s: Step, id: TransferId)
    requires IsRun(run) && i + 1 < |run| && Next(run[i], run[i + 1], s) && s.Run? && s.thread in run[i].threads
    requires id in run[i].objs && !Final(run[i].objs[id].state)
    requires BadReport(run[i].objs[id], run[i].threads[s.thread].pc, id)
    ensures s.thread in run[i + 1].threads && FailingFor(run[i + 1].threads[s.thread].pc) == Some(id)
  {
    var pc := run[i].threads[s.thread].pc;
    var pc' := if s.thread in run[i + 1].threads then Some(run[i + 1].threads[s.thread].pc) else None;
    match pc
    case TargetFinish(x, from, size, raw) => TargetFinishDecides(run, i, s, x, from, size, raw);
    case SourceFinishCheck(_, _, _, _) => FinishCheckDecides(run, i, s, pc, pc');
    case PeerFailedCheck(_, _) => ReportDecides(run, i, s, pc, pc');
    case SourceCancelledCheck(_, _) => ReportDecides(run, i, s, pc, pc');
    case _ =>
  }

  /** A peer's report of failure, the source's of cancellation, a finish of the target with another size or digest,
      or one of the source with no digest at all: when its handler is done, the transfer is over. */
  lemma BadReportEnds(run: seq<World>, i: nat, j: nat, s: Step, id: TransferId)
    requires IsRun(run) && i + 1 < |run| && Next(run[i], run[i + 1], s) && s.Run?
    requires Finishes(run, i, j, s.thread) && id in run[i].objs && !Final(run[i].objs[id].state)
    requires BadReport(run[i].objs[id], run[i].threads[s.thread].pc, id)
    ensures id in run[j].objs && Final(run[j].objs[id].state)
  {
    BadReportFails(run, i, s, id);
    OnlyForward(run, i, i + 1, id);
    FailureIsCertain(run, i + 1, j, s.thread, id);
  }

  /** What the source of a running transfer may not send: a chunk that is not due or does not fit, or a finish of a
      size that is not the declared one or has not been relayed. */
  ghost predicate BadStream(t: Transfer, op: Op) {
    match op
    case ChunkOp(from, sequence, payload) =>
      && t.state == Running && from == t.history.src
      && (sequence != t.nextSeq || (t.transferred + |payload|) % WORD > t.size)
    case SourceFinishOp(from, size, _) =>
      t.state == Running && from == t.history.src && (size != t.size || t.transferred != t.size)
    case _ => false
  }

  lemma BadStreamFails(run: seq<World>, i: nat, s: Step, id: TransferId, op: Op)
    requires IsRun(run) && i + 1 < |run| && Next(run[i], run[i + 1], s) && s.Run? && s.thread in run[i].threads
    requires run[i].threads[s.thread].pc == Region(id, op) && id in run[i].objs && BadStream(run[i].objs[id], op)
    ensures EndsNext(run[i + 1], s.thread, id)
  {
    HolderTurns(run, i, s, id);
    var t, t', pc' :| Turns(run, i, s, Region(id, op), id, t, t', pc');
    match op
    case ChunkOp(from, sequence, payload) => ChunkDecides(run, i, s, id, t, t', pc', from, sequence, payload);
    case SourceFinishOp(from, size, raw) => SourceFinishDecides(run, i, s, id, t, t', pc', from, size, raw);
    case _ =>
  }

  /** Once its handler has the transfer to itself and finds such a message, the transfer is over when it is done. */
  lemma BadStreamEnds(run: seq<World>, i: nat, j: nat, s: Step, id: TransferId, op: Op)
    requires IsRun(run) && i + 1 < |run| && Next(run[i], run[i + 1], s) && s.Run?
    requires Finishes(run, i, j, s.thread) && run[i].threads[s.thread].pc == Region(id, op) && id in run[i].objs
    requires BadStream(run[i].objs[id], op)
    ensures id in run[j].objs && Final(run[j].objs[id].state)
  {
    BadStreamFails(run, i, s, id, op);
    if i + 1 < j {
      FailNowIsCertain(run, i + 1, j, s.thread, id);
    }
  }
}
