/** What every handler decides: for each point of the engine at which something is decided, the state of the transfer
    and the place of the thread after the step, in every run, in terms of the fields and the message alone. */
module TransferDecisions {
  import opened Common
  import opened TransferModel
  import opened TransferEngine
  import opened TransferLocal
  import opened TransferInvariant
  import opened TransferRun
  import opened TransferTheorems
  import opened TransferDigest

  /** Step `s` of a run takes thread `u` from `pc`, where it owns relayMu of `id`, to `pc'`, and the transfer from
      `t` to `t'`. */
  ghost predicate Turns(run: seq<World>, i: nat, s: Step, pc: Pc, id: TransferId, t: Transfer, t': Transfer, pc': Pc) {
    && IsRun(run) && i + 1 < |run| && Next(run[i], run[i + 1], s) && s.Run?
    && s.thread in run[i].threads && run[i].threads[s.thread].pc == pc && Holding(pc) == Some(id) && !pc.Unlock?
    && id in run[i].objs && run[i].objs[id] == t
    && id in run[i + 1].objs && run[i + 1].objs[id] == t'
    && s.thread in run[i + 1].threads && run[i + 1].threads[s.thread].pc == pc'
  }

  /** Every step of a thread that owns relayMu is such a turn. */
  lemma HolderTurns(run: seq<World>, i: nat, s: Step, id: TransferId)
    requires IsRun(run) && i + 1 < |run| && Next(run[i], run[i + 1], s) && s.Run? && s.thread in run[i].threads
    requires Holding(run[i].threads[s.thread].pc) == Some(id) && !run[i].threads[s.thread].pc.Unlock?
    ensures exists t, t', pc' :: Turns(run, i, s, run[i].threads[s.thread].pc, id, t, t', pc')
  {
    HolderKnows(run, i, s.thread, id);
    HolderSteps(run[i], run[i + 1], s, run[i].threads[s.thread].pc, id);
    assert Turns(run, i, s, run[i].threads[s.thread].pc, id, run[i].objs[id], run[i + 1].objs[id],
                 run[i + 1].threads[s.thread].pc);
  }

  lemma TurnIsStep(run: seq<World>, i: nat, s: Step, pc: Pc, id: TransferId, t: Transfer, t': Transfer, pc': Pc)
    requires Turns(run, i, s, pc, id, t, t', pc')
    ensures Sound(t, run[i].now) && HolderOk(t, pc, s.thread, run[i].now)
    ensures (t', pc') == HolderStep(t, pc, id in run[i].table, Closed(run[i]), s.ok, run[i].now)
    ensures !Final(t.state) ==> id in run[i].table
  {
    HolderKnows(run, i, s.thread, id);
    HolderSteps(run[i], run[i + 1], s, pc, id);
    if !Final(t.state) { LiveListed(run, i, id); }
  }

  lemma LiveListed(run: seq<World>, i: nat, id: TransferId)
    requires IsRun(run) && i < |run| && id in run[i].objs && !Final(run[i].objs[id].state)
    ensures id in run[i].table
  {
    Reachable(run, i);
  }

  // ----- Ready

  /** The source's ready message is taken while preparing: the size is recorded, and the stream is started if the
      target is ready. Any other one is ignored. */
  lemma SourceReadyDecides(run: seq<World>, i: nat, s: Step, id: TransferId, t: Transfer, t': Transfer, pc': Pc,
                           from: SessionId, size: nat)
    requires Turns(run, i, s, Region(id, SourceReadyOp(from, size)), id, t, t', pc')
    ensures if t.state == Preparing && from == t.history.src then
              && t'.sourceReady && t'.targetReady == t.targetReady && t'.size == size
              && t'.updatedAt == Wall(run[i].now)
              && (if t.targetReady then t'.state == Running && pc' == Hand(id, t.history.src, SendGo)
                  else t'.state == Preparing && pc' == Unlock(id))
            else t' == t && pc' == Unlock(id)
  {
    TurnIsStep(run, i, s, Region(id, SourceReadyOp(from, size)), id, t, t', pc');
  }

  lemma TargetReadyDecides(run: seq<World>, i: nat, s: Step, id: TransferId, t: Transfer, t': Transfer, pc': Pc,
                           from: SessionId)
    requires Turns(run, i, s, Region(id, TargetReadyOp(from)), id, t, t', pc')
    ensures if t.state == Preparing && from == t.history.tgt then
              && t'.targetReady && t'.sourceReady == t.sourceReady && t'.size == t.size
              && t'.updatedAt == Wall(run[i].now)
              && (if t.sourceReady then t'.state == Running && pc' == Hand(id, t.history.src, SendGo)
                  else t'.state == Preparing && pc' == Unlock(id))
            else t' == t && pc' == Unlock(id)
  {
    TurnIsStep(run, i, s, Region(id, TargetReadyOp(from)), id, t, t', pc');
  }

  // ----- Chunks

  /** A chunk of the source of a running transfer is relayed to the target exactly if it has the number that is due
      and passes the size guard; otherwise it fails the transfer. Any other chunk is ignored. */
  lemma ChunkDecides(run: seq<World>, i: nat, s: Step, id: TransferId, t: Transfer, t': Transfer, pc': Pc,
                     from: SessionId, sequence: nat, payload: Bytes)
    requires Turns(run, i, s, Region(id, ChunkOp(from, sequence, payload)), id, t, t', pc')
    ensures t' == t
    ensures pc' == if t.state != Running || from != t.history.src then Unlock(id)
                   else if sequence == t.nextSeq && (t.transferred + |payload|) % WORD <= t.size then
                     Hand(id, t.history.tgt, Chunk(sequence, payload))
                   else FailNow(id, false)
  {
    TurnIsStep(run, i, s, Region(id, ChunkOp(from, sequence, payload)), id, t, t', pc');
    ChunkStepDecides(t, id, from, sequence, payload, id in run[i].table, run[i].now);
  }

  lemma ChunkStepDecides(t: Transfer, id: TransferId, from: SessionId, sequence: nat, payload: Bytes, listed: bool,
                         now: Clock)
    requires Sound(t, now) && (!Final(t.state) ==> listed)
    ensures RegionStep(t, id, ChunkOp(from, sequence, payload), listed, now) ==
            (t, if t.state != Running || from != t.history.src then Unlock(id)
                else if sequence == t.nextSeq && (t.transferred + |payload|) % WORD <= t.size then
                  Hand(id, t.history.tgt, Chunk(sequence, payload))
                else FailNow(id, false))
  {
  }

  /** A chunk that the target's transport has taken is recorded, whatever has happened meanwhile. */
  lemma SentChunkDecides(run: seq<World>, i: nat, s: Step, id: TransferId, t: Transfer, t': Transfer, pc': Pc,
                         sequence: nat, payload: Bytes)
    requires Turns(run, i, s, ChunkSent(id, sequence, payload), id, t, t', pc')
    ensures pc' == Unlock(id) && t'.state == Running && t'.history.delivered == t.history.delivered + 1
    ensures t'.nextSeq == (sequence + 1) % WORD && t'.transferred == (t.transferred + |payload|) % WORD
    ensures t'.updatedAt == Wall(run[i].now)
  {
    TurnIsStep(run, i, s, ChunkSent(id, sequence, payload), id, t, t', pc');
  }

  // ----- Finish

  /** The source's finish of a running transfer is accepted exactly if the size is the declared one and has been
      relayed, and otherwise fails the transfer; the target is told to commit that size and the digest that the
      report spells. Any other one is ignored. */
  lemma SourceFinishDecides(run: seq<World>, i: nat, s: Step, id: TransferId, t: Transfer, t': Transfer, pc': Pc,
                            from: SessionId, size: nat, raw: string)
    requires Turns(run, i, s, Region(id, SourceFinishOp(from, size, raw)), id, t, t', pc')
    ensures if t.state != Running || from != t.history.src then t' == t && pc' == Unlock(id)
            else if size == t.size && t.transferred == t.size then
              && t'.state == Verifying && LowerHexText(t'.digest) && Spells(raw, t'.digest)
              && t'.updatedAt == Wall(run[i].now) && pc' == Hand(id, t.history.tgt, Commit(t.size, t'.digest))
            else t' == t && pc' == FailNow(id, false)
  {
    TurnIsStep(run, i, s, Region(id, SourceFinishOp(from, size, raw)), id, t, t', pc');
    NormalIsLower(raw);
  }

  /** The target's finish of a verifying transfer completes it exactly if the size is the declared one and the report
      spells the source's digest; otherwise the handler goes on to fail the transfer. Any other one is ignored. */
  lemma TargetFinishDecides(run: seq<World>, i: nat, s: Step, id: TransferId, from: SessionId, size: nat, raw: string)
    requires IsRun(run) && i + 1 < |run| && Next(run[i], run[i + 1], s) && s.Run? && s.thread in run[i].threads
    requires run[i].threads[s.thread].pc == TargetFinish(id, from, size, raw) && id in run[i].objs
    ensures id in run[i + 1].objs && s.thread in run[i + 1].threads
    ensures var t, t', pc' := run[i].objs[id], run[i + 1].objs[id], run[i + 1].threads[s.thread].pc;
            if t.state != Verifying || from != t.history.tgt then t' == t && pc' == NextFailure
            else if size == t.size && Spells(raw, t.digest) then
              && t'.state == Completed && t'.updatedAt == Wall(run[i].now) && t'.timer == None
              && pc' == NextFailure
            else t' == t && pc' == Lookup(id, FailOp)
  {
    var w := run[i];
    assert Sound(w.objs[id], w.now) && (!Final(w.objs[id].state) ==> id in w.table) by { Reachable(run, i); }
    if w.objs[id].state == Verifying {
      NormalIsLower(w.objs[id].history.sourceFinish.value.digest);
      NormaliseExact(raw, w.objs[id].digest);
    }
    FinishStepDecides(w, run[i + 1], s, w.threads[s.thread].pc);
  }

  lemma FinishStepDecides(w: World, w': World, s: Step, pc: Pc)
    requires StepAt(w, w', s, pc) && pc.TargetFinish? && pc.id in w.objs && Sound(w.objs[pc.id], w.now)
    requires !Final(w.objs[pc.id].state) ==> pc.id in w.table
    ensures pc.id in w'.objs && s.thread in w'.threads
    ensures var t, t', pc' := w.objs[pc.id], w'.objs[pc.id], w'.threads[s.thread].pc;
            if t.state != Verifying || pc.from != t.history.tgt then t' == t && pc' == NextFailure
            else if pc.size == t.size && Normalise(pc.raw) == t.digest then
              t'.state == Completed && t'.updatedAt == Wall(w.now) && t'.timer == None && pc' == NextFailure
            else t' == t && pc' == Lookup(pc.id, FailOp)
  {
    assert TargetFinishNext(w, w', s.thread);
    VerdictDecides(w.objs[pc.id], pc.id in w.table, pc.from, pc.size, pc.raw, w.now);
  }

  lemma VerdictDecides(t: Transfer, listed: bool, from: SessionId, size: nat, raw: string, now: Clock)
    requires Sound(t, now) && (!Final(t.state) ==> listed)
    ensures TargetFinishVerdict(listed, t, from, size, raw) ==
            if t.state != Verifying || from != t.history.tgt then Ignored
            else if size == t.size && Normalise(raw) == t.digest then Accepted
            else Mismatch
  {
  }

  // ----- Ending

  /** Cancelling, failing, or giving up takes a live transfer to its end, in the state that says so, and goes on to
      tell both peers, the source first; it does nothing to a transfer that is over. */
  lemma EndDecides(run: seq<World>, i: nat, s: Step, pc: Pc, id: TransferId, t: Transfer, t': Transfer, pc': Pc)
    requires Turns(run, i, s, pc, id, t, t', pc')
    requires pc == Region(id, CancelOp) || pc == Region(id, FailOp) || pc.FailNow?
    ensures if Final(t.state) then t'.state == t.state && pc' == TellCancel(id, [])
            else
              && t'.state == (if pc == Region(id, CancelOp) then Cancelled else Failed)
              && t'.readyClosed && t'.timer == None && t'.updatedAt == Wall(run[i].now)
              && pc' == TellCancel(id, [t.history.src, t.history.tgt])
  {
    TurnIsStep(run, i, s, pc, id, t, t', pc');
  }

  /** Each peer is told in turn, unless its session is closed. */
  lemma TellDecides(run: seq<World>, i: nat, s: Step, id: TransferId, t: Transfer, t': Transfer, pc': Pc,
                    peers: seq<SessionId>)
    requires Turns(run, i, s, TellCancel(id, peers), id, t, t', pc')
    ensures t'.state == t.state
    ensures if peers == [] then t' == t && pc' == Unlock(id)
            else if peers[0] in Closed(run[i]) then t'.history.log == t.history.log && pc' == TellCancel(id, peers[1..])
            else t'.history.log == t.history.log + [Event(peers[0], Cancel)] && pc' == CancelInTransport(id, peers[1..])
  {
    TurnIsStep(run, i, s, TellCancel(id, peers), id, t, t', pc');
  }

  lemma ToldDecides(run: seq<World>, i: nat, s: Step, id: TransferId, t: Transfer, t': Transfer, pc': Pc,
                    peers: seq<SessionId>)
    requires Turns(run, i, s, CancelInTransport(id, peers), id, t, t', pc')
    ensures t' == t && pc' == TellCancel(id, peers)
  {
    TurnIsStep(run, i, s, CancelInTransport(id, peers), id, t, t', pc');
  }

  // ----- Sending

  /** A message goes to an open session; a closed one fails the transfer. */
  lemma HandDecides(run: seq<World>, i: nat, s: Step, id: TransferId, t: Transfer, t': Transfer, pc': Pc,
                    to: SessionId, message: Message)
    requires Turns(run, i, s, Hand(id, to, message), id, t, t', pc')
    ensures t'.state == t.state
    ensures if to in Closed(run[i]) then t'.history.log == t.history.log && pc' == FailNow(id, false)
            else t'.history.log == t.history.log + [Event(to, message)] && pc' == InTransport(id, to, message)
  {
    TurnIsStep(run, i, s, Hand(id, to, message), id, t, t', pc');
  }

  /** A send that fails, of whatever message, fails the transfer. After one that succeeds the source is asked to
      prepare once the target has been, a chunk is recorded, and otherwise the handler is done. */
  lemma SentDecides(run: seq<World>, i: nat, s: Step, id: TransferId, t: Transfer, t': Transfer, pc': Pc,
                    to: SessionId, message: Message)
    requires Turns(run, i, s, InTransport(id, to, message), id, t, t', pc')
    ensures t' == t
    ensures pc' == if !s.ok then FailNow(id, false)
                   else if message == TargetStart then Hand(id, t.history.src, SourceStart)
                   else if message.Chunk? then ChunkSent(id, message.sequence, message.payload)
                   else Unlock(id)
  {
    TurnIsStep(run, i, s, InTransport(id, to, message), id, t, t', pc');
  }

  /** StartTransfer begins with the target. */
  lemma StartDecides(run: seq<World>, i: nat, s: Step, id: TransferId, t: Transfer, t': Transfer, pc': Pc)
    requires Turns(run, i, s, Region(id, StartOp), id, t, t', pc')
    ensures t' == t && pc' == Hand(id, t.history.tgt, TargetStart)
  {
    TurnIsStep(run, i, s, Region(id, StartOp), id, t, t', pc');
  }

  // ----- Before and after relayMu

  /** A step of thread `u`, which owns no relayMu, from `pc` to `pc'`; None when it is done. */
  ghost predicate Moves(run: seq<World>, i: nat, s: Step, pc: Pc, pc': Option<Pc>) {
    && IsRun(run) && i + 1 < |run| && Next(run[i], run[i + 1], s) && s.Run?
    && s.thread in run[i].threads && run[i].threads[s.thread].pc == pc
    && pc' == (if s.thread in run[i + 1].threads then Some(run[i + 1].threads[s.thread].pc) else None)
  }

  /** A peer's report of failure, and the source's report that its stream was cancelled, lead to the failure of the
      transfer exactly if it is live and the report comes from a peer, or from the source. */
  lemma ReportDecides(run: seq<World>, i: nat, s: Step, pc: Pc, pc': Option<Pc>)
    requires Moves(run, i, s, pc, pc') && (pc.PeerFailedCheck? || pc.SourceCancelledCheck?)
    ensures run[i + 1].objs == run[i].objs
    ensures var w := run[i];
            pc' == if pc.id in w.objs && !Final(w.objs[pc.id].state)
                      && (pc.from == w.objs[pc.id].history.src
                          || (pc.PeerFailedCheck? && pc.from == w.objs[pc.id].history.tgt))
                   then Some(Lookup(pc.id, FailOp)) else Some(NextFailure)
  {
    var w := run[i];
    assert pc.id in w.objs ==> Sound(w.objs[pc.id], w.now) && (!Final(w.objs[pc.id].state) ==> pc.id in w.table) by {
      Reachable(run, i);
    }
  }

  /** A source finish whose digest spells nothing leads to the failure of the transfer, any other one to a look at
      it. */
  lemma FinishCheckDecides(run: seq<World>, i: nat, s: Step, pc: Pc, pc': Option<Pc>)
    requires Moves(run, i, s, pc, pc') && pc.SourceFinishCheck?
    ensures run[i + 1].objs == run[i].objs
    ensures pc' == Some(Lookup(pc.id, if exists d :: LowerHexText(d) && Spells(pc.raw, d)
                                      then SourceFinishOp(pc.from, pc.size, pc.raw) else FailOp))
  {
    WellFormedWhen(pc.raw);
  }

  /** A handler goes on to relayMu if the transfer is listed, as every live one is, and is done if not. */
  lemma LookupDecides(run: seq<World>, i: nat, s: Step, pc: Pc, pc': Option<Pc>)
    requires Moves(run, i, s, pc, pc') && pc.Lookup?
    ensures run[i + 1].objs == run[i].objs
    ensures pc' == Some(WantRelay(pc.id, pc.op)) || (pc' == Some(NextFailure) && pc.id !in run[i].table)
    ensures pc.id in run[i].objs && !Final(run[i].objs[pc.id].state) ==> pc' == Some(WantRelay(pc.id, pc.op))
  {
    if pc.id in run[i].objs && !Final(run[i].objs[pc.id].state) { LiveListed(run, i, pc.id); }
  }

  lemma LockDecides(run: seq<World>, i: nat, s: Step, pc: Pc, pc': Option<Pc>)
    requires Moves(run, i, s, pc, pc') && pc.WantRelay?
    ensures pc.id in run[i].objs && run[i].objs[pc.id].relay == None && pc.id in run[i + 1].objs
    ensures run[i + 1].objs[pc.id] == run[i].objs[pc.id].(relay := Some(s.thread)) && pc' == Some(Region(pc.id, pc.op))
  {
  }

  lemma UnlockDecides(run: seq<World>, i: nat, s: Step, pc: Pc, pc': Option<Pc>)
    requires Moves(run, i, s, pc, pc') && pc.Unlock?
    ensures pc.id in run[i].objs && pc.id in run[i + 1].objs
    ensures run[i + 1].objs[pc.id] == run[i].objs[pc.id].(relay := None)
    ensures pc' == Some(if run[i].threads[s.thread].starting then AwaitReady(pc.id) else NextFailure)
  {
  }

  /** StartTransfer returns only when the transfer is no longer preparing; given up, it cancels the transfer. */
  lemma AwaitDecides(run: seq<World>, i: nat, s: Step, pc: Pc, pc': Option<Pc>)
    requires Moves(run, i, s, pc, pc') && pc.AwaitReady?
    ensures pc.id in run[i].objs && run[i + 1].objs == run[i].objs
    ensures if s.ok then pc' == None && run[i].objs[pc.id].state != Preparing else pc' == Some(Lookup(pc.id, CancelOp))
  {
    assert pc.id in run[i].objs && Sound(run[i].objs[pc.id], run[i].now) by {
      Reachable(run, i);
      assert ThreadOk(run[i], s.thread);
    }
  }

  /** Detach takes a session out of the registry only if it is the one its device is bound to, then closes it, and
      then looks for its transfers. */
  lemma DetachDecides(run: seq<World>, i: nat, s: Step, pc: Pc, pc': Option<Pc>)
    requires Moves(run, i, s, pc, pc') && (pc.Unregister? || pc.CloseSession?)
    ensures var w, w' := run[i], run[i + 1];
            && pc.session in w.sessions && w'.objs == w.objs
            && (pc.Unregister? ==>
                  var d := w.sessions[pc.session].device;
                  && w'.devices == (if d in w.devices && w.devices[d] == pc.session then w.devices - {d} else w.devices)
                  && w'.sessions == w.sessions && pc' == Some(CloseSession(pc.session)))
            && (pc.CloseSession? ==>
                  && w'.devices == w.devices && pc.session in w'.sessions && w'.sessions[pc.session].closed
                  && (forall x :: x in w.sessions && x != pc.session ==>
                        x in w'.sessions && w'.sessions[x] == w.sessions[x])
                  && pc' == Some(Scan(pc.session)))
  {
  }

  /** Some live transfer uses the device. */
  ghost predicate Busy(w: World, d: Device) {
    exists id :: id in Live(w) && (w.objs[id].sourceDevice == d || w.objs[id].targetDevice == d)
  }

  /** StartTransfer finds the source, then the target, and publishes exactly if both devices are free. */
  lemma ResolveDecides(run: seq<World>, i: nat, s: Step, pc: Pc, pc': Option<Pc>)
    requires Moves(run, i, s, pc, pc') && (pc.ResolveSource? || pc.ResolveTarget?)
    ensures run[i + 1].objs == run[i].objs
    ensures var w := run[i];
            pc' == match pc
                   case ResolveSource(a, b) => if a in w.devices then Some(ResolveTarget(a, b, w.devices[a])) else None
                   case ResolveTarget(a, b, src) =>
                     if b in w.devices then Some(Publish(a, b, src, w.devices[b], w.now)) else None
                   case _ => None
  {
  }

  lemma PublishDecides(run: seq<World>, i: nat, s: Step, pc: Pc, pc': Option<Pc>)
    requires Moves(run, i, s, pc, pc') && pc.Publish?
    ensures var w, w' := run[i], run[i + 1];
            if Busy(w, pc.a) || Busy(w, pc.b) then
              pc' == None && w'.objs == w.objs
            else
              exists id :: id !in w.objs && id in w'.objs && pc' == Some(WantRelay(id, StartOp))
                && w'.objs[id].sourceDevice == pc.a && w'.objs[id].targetDevice == pc.b
                && w'.objs[id].history.src == pc.src && w'.objs[id].history.tgt == pc.tgt
  {
    BusyMeansLive(run, i, pc.a);
    BusyMeansLive(run, i, pc.b);
    PublishStepDecides(run[i], run[i + 1], s, pc);
  }

  /** A transfer is forgotten only when another is published, the history is full, this one is over, and none that is
      over and stays was updated before it. */
  lemma ForgottenWhen(run: seq<World>, i: nat, s: Step, id: TransferId)
    requires IsRun(run) && i + 1 < |run| && Next(run[i], run[i + 1], s)
    requires id in run[i].table && id !in run[i + 1].table
    ensures s.Run? && s.thread in run[i].threads && run[i].threads[s.thread].pc.Publish?
    ensures id in run[i].objs && Final(run[i].objs[id].state) && |run[i].table| >= 256
    ensures forall other :: other in run[i].table * run[i + 1].table && other in run[i].objs ==>
              !Final(run[i].objs[other].state) || run[i].objs[id].updatedAt <= run[i].objs[other].updatedAt
  {
    assert s.Run? && run[i].table <= run[i].objs.Keys;
    var pc := run[i].threads[s.thread].pc;
    OnlyPublishForgets(run[i], run[i + 1], s, pc);
    SmallerTable(run[i].table, s.kept, id);
    PublishForgets(run[i], run[i + 1], s, pc, id);
  }

  lemma OnlyPublishForgets(w: World, w': World, s: Step, pc: Pc)
    requires StepAt(w, w', s, pc)
    ensures w'.table == w.table || pc.Publish?
  {
    if Holding(pc).Some? && !pc.Unlock? {
      assert HolderNext(w, w', s.thread, Holding(pc).value, s.ok);
    } else if !pc.Publish? {
      FreeForgets(w, w', s, pc);
    }
  }

  lemma SmallerTable(table: set<TransferId>, kept: set<TransferId>, id: TransferId)
    requires id in table && id !in kept
    ensures kept <= table ==> |kept| < |table|
  {
    if kept <= table { SubsetSize(kept, table - {id}); }
  }

  lemma PublishForgets(w: World, w': World, s: Step, pc: Pc, id: TransferId)
    requires StepAt(w, w', s, pc) && pc.Publish? && id in w.table && id !in w'.table && w.table <= w.objs.Keys
    requires s.kept <= w.table ==> id in s.kept || |s.kept| < |w.table|
    ensures Final(w.objs[id].state) && |w.table| >= 256
    ensures forall other :: other in w.table * w'.table && Final(w.objs[other].state) ==>
              w.objs[id].updatedAt <= w.objs[other].updatedAt
  {
  }

  lemma FreeForgets(w: World, w': World, s: Step, pc: Pc)
    requires StepAt(w, w', s, pc) && (Holding(pc) == None || pc.Unlock?) && !pc.Publish?
    ensures w'.table == w.table
  {
  }

  lemma BusyMeansLive(run: seq<World>, i: nat, d: Device)
    requires IsRun(run) && i < |run|
    ensures d in run[i].active <==> Busy(run[i], d)
  {
    Reachable(run, i);
    if d in run[i].active { assert run[i].active[d] in Live(run[i]); }
  }

  lemma PublishStepDecides(w: World, w': World, s: Step, pc: Pc)
    requires StepAt(w, w', s, pc) && pc.Publish?
    ensures pc.a in w.active || pc.b in w.active ==> s.thread !in w'.threads && w'.objs == w.objs
    ensures pc.a !in w.active && pc.b !in w.active ==>
              && s.newId !in w.objs && s.newId in w'.objs
              && s.thread in w'.threads && w'.threads[s.thread].pc == WantRelay(s.newId, StartOp)
              && w'.objs[s.newId].sourceDevice == pc.a && w'.objs[s.newId].targetDevice == pc.b
              && w'.objs[s.newId].history.src == pc.src && w'.objs[s.newId].history.tgt == pc.tgt
  {
  }
}
