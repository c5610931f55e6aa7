/** The regions of internal/device/transfer.go that run under `transferMu`, executed in place on the
    manager's tables and on transfer objects. Each method is proved to do what the function of the same
    region in TransferModel says; the engine interleaves those functions. */
module TransferManager {
  import opened Common
  import opened TransferModel
  import opened TransferEngine

  class TransferObject {
    const id: TransferId
    const sourceDevice: Device
    const targetDevice: Device
    var source: Option<SessionId>
    var target: Option<SessionId>
    var state: State
    var size: nat
    var transferred: nat
    var digest: string
    var sourceReady: bool
    var targetReady: bool
    var nextSeq: nat
    var readyClosed: bool
    var updatedAt: int
    var timer: Option<Time>
    ghost var relay: Option<ThreadId>
    ghost var history: History

    ghost function View(): (v: Transfer)
      reads this
    {
      Transfer(sourceDevice, targetDevice, source, target, state, size, transferred, digest, sourceReady,
               targetReady, nextSeq, readyClosed, updatedAt, timer, relay, history)
    }

    constructor (id: TransferId, a: Device, b: Device, src: SessionId, tgt: SessionId, createdAt: Clock,
        ghost starter: ThreadId, now: Clock)
      ensures View() == Created(a, b, src, tgt, starter, createdAt, now) && this.id == id
    {
      this.id, sourceDevice, targetDevice := id, a, b;
      source, target := Some(src), Some(tgt);
      state, size, transferred, digest := Preparing, 0, 0, "";
      sourceReady, targetReady, nextSeq, readyClosed := false, false, 0, false;
      updatedAt, timer := Wall(createdAt), Some(now.mono + IDLE_TIMEOUT);
      relay, history := None,
          History(src, tgt, starter, [], 0, {src, tgt}, {}, None, now.mono, createdAt.mono, None, None);
    }

    /** The assignments of a successful target finish. */
    method Accept(reported: nat, raw: string, now: Clock)
      modifies this
      ensures View() == Complete(old(View()), reported, raw, now)
    {
      state := Completed;
      transferred := size;
      updatedAt := Wall(now);
      timer := None;
      source := None;
      target := None;
      history := history.(targetFinish := Some(Report(reported, raw)), progressAt := now.mono);
    }

    /** The assignments shared by cancelling and failing. */
    method End(final: State, now: Clock) returns (peers: seq<SessionId>)
      modifies this
      ensures View() == Finish(old(View()), final, now) && peers == Peers(old(View()))
    {
      state := final;
      updatedAt := Wall(now);
      history := history.(progressAt := now.mono);
      timer := None;
      readyClosed := true;
      peers := [];
      if source.Some? { peers := peers + [source.value]; }
      if target.Some? { peers := peers + [target.value]; }
      source := None;
      target := None;
    }
  }

  /** The values of a table of transfer objects. */
  ghost function Views(transfers: map<TransferId, TransferObject>): map<TransferId, Transfer>
    reads transfers.Values
  {
    map id | id in transfers :: transfers[id].View()
  }

  class Manager {
    var transfers: map<TransferId, TransferObject>
    var activeTransfer: map<Device, TransferId>

    /** `m.transfers[id] == t` */
    predicate Listed(t: TransferObject)
      reads this
    {
      t.id in transfers && transfers[t.id] == t
    }

    constructor ()
      ensures transfers == map[] && activeTransfer == map[]
    {
      transfers, activeTransfer := map[], map[];
    }

    /** Both reservations go if they are still this transfer's. */
    method ReleaseTransferDevices(t: TransferObject)
      modifies this`activeTransfer
      ensures activeTransfer == ReleaseDevices(old(activeTransfer), t.id, t.View())
    {
      if t.sourceDevice in activeTransfer && activeTransfer[t.sourceDevice] == t.id {
        activeTransfer := activeTransfer - {t.sourceDevice};
      }
      if t.targetDevice in activeTransfer && activeTransfer[t.targetDevice] == t.id {
        activeTransfer := activeTransfer - {t.targetDevice};
      }
    }

    method SourceReady(t: TransferObject, from: SessionId, reported: nat, now: Clock) returns (outcome: Outcome)
      modifies t
      ensures (t.View(), outcome) == SourceReadyRegion(Listed(t), old(t.View()), from, reported, now)
    {
      if !Listed(t) || Final(t.state) || t.source != Some(from) || t.state != Preparing { return Leave; }
      t.sourceReady := true;
      t.size := reported;
      t.updatedAt := Wall(now);
      t.history := t.history.(progressAt := now.mono);
      outcome := Leave;
      if t.targetReady {
        t.state := Running;
        t.updatedAt := Wall(now);
        t.readyClosed := true;
        outcome := SendMessage(t.source.value, SendGo);
      }
    }

    method TargetReady(t: TransferObject, from: SessionId, now: Clock) returns (outcome: Outcome)
      modifies t
      ensures (t.View(), outcome) == TargetReadyRegion(Listed(t), old(t.View()), from, now)
    {
      if !Listed(t) || Final(t.state) || t.target != Some(from) || t.state != Preparing { return Leave; }
      t.targetReady := true;
      t.updatedAt := Wall(now);
      t.history := t.history.(progressAt := now.mono);
      outcome := Leave;
      if t.sourceReady {
        t.state := Running;
        t.updatedAt := Wall(now);
        t.readyClosed := true;
        if t.source.Some? { outcome := SendMessage(t.source.value, SendGo); }
      }
    }

    /** The checks made before a chunk is handed to the target. */
    method AdmitChunk(t: TransferObject, from: SessionId, sequence: nat, payload: Bytes) returns (outcome: Outcome)
      requires !Final(t.state) ==> t.target.Some?
      ensures outcome == ChunkRegion(Listed(t), t.View(), from, sequence, payload)
    {
      if !Listed(t) { return Leave; }
      if Final(t.state) { return Leave; }
      if t.state != Running || t.source != Some(from) { return Leave; }
      if sequence != t.nextSeq { return GiveUp; }
      if (t.transferred + |payload|) % WORD > t.size { return GiveUp; }
      outcome := SendMessage(t.target.value, Chunk(sequence, payload));
    }

    method RecordChunk(t: TransferObject, sequence: nat, payload: Bytes, now: Clock)
      modifies t
      ensures t.View() == ChunkSentRegion(Listed(t), old(t.View()), sequence, payload, now)
    {
      if Listed(t) && t.state == Running && t.nextSeq == sequence {
        t.nextSeq := (t.nextSeq + 1) % WORD;
        t.transferred := (t.transferred + |payload|) % WORD;
        t.updatedAt := Wall(now);
        t.history := t.history.(delivered := t.history.delivered + 1, progressAt := now.mono);
      }
    }

    method SourceFinish(t: TransferObject, from: SessionId, reported: nat, raw: string, now: Clock)
        returns (outcome: Outcome)
      requires !Final(t.state) ==> t.target.Some?
      modifies t
      ensures (t.View(), outcome) == SourceFinishRegion(Listed(t), old(t.View()), from, reported, raw, now)
    {
      if !Listed(t) || Final(t.state) || t.source != Some(from) || t.state != Running { return Leave; }
      if reported != t.size || t.transferred != t.size { return GiveUp; }
      t.state := Verifying;
      t.digest := Normalise(raw);
      t.updatedAt := Wall(now);
      t.history := t.history.(sourceFinish := Some(Report(reported, raw)), progressAt := now.mono);
      outcome := SendMessage(t.target.value, Commit(reported, t.digest));
    }

    /** The part of transferTargetFinish after the lookup; the only region that ends a transfer without relayMu. */
    method FinishListed(t: TransferObject, from: SessionId, reported: nat, raw: string, now: Clock)
        returns (verdict: Verdict)
      modifies this`activeTransfer, t
      ensures verdict == TargetFinishVerdict(true, old(t.View()), from, reported, raw)
      ensures t.View() == if verdict == Accepted then Complete(old(t.View()), reported, raw, now) else old(t.View())
      ensures activeTransfer == if verdict == Accepted then ReleaseDevices(old(activeTransfer), t.id, old(t.View()))
                                else old(activeTransfer)
    {
      if Final(t.state) || t.target != Some(from) || t.state != Verifying { return Ignored; }
      if reported != t.size || Normalise(raw) != t.digest { return Mismatch; }
      ReleaseTransferDevices(t);
      t.Accept(reported, raw, now);
      return Accepted;
    }

    method TargetFinish(id: TransferId, from: SessionId, reported: nat, raw: string, now: Clock)
      returns (t: Option<TransferObject>, verdict: Verdict)
      modifies this`activeTransfer, if id in transfers then {transfers[id]} else {}
      ensures t == if id in transfers then Some(transfers[id]) else None
      ensures t.None? ==> verdict == Ignored && activeTransfer == old(activeTransfer)
      ensures t.Some? ==>
                && verdict == TargetFinishVerdict(true, old(t.value.View()), from, reported, raw)
                && t.value.View() == (if verdict == Accepted then Complete(old(t.value.View()), reported, raw, now)
                                      else old(t.value.View()))
                && activeTransfer == (if verdict == Accepted
                                      then ReleaseDevices(old(activeTransfer), t.value.id, old(t.value.View()))
                                      else old(activeTransfer))
    {
      if id !in transfers { return None, Ignored; }
      t := Some(transfers[id]);
      verdict := FinishListed(t.value, from, reported, raw, now);
    }

    /** The region of CancelTransfer and of failTransferRelayLocked. */
    method EndTransfer(t: TransferObject, final: State, now: Clock) returns (peers: seq<SessionId>)
      modifies this`activeTransfer, t
      ensures (t.View(), peers) == EndRegion(Listed(t), old(t.View()), final, now)
      ensures activeTransfer == if Listed(t) && !Final(old(t.state))
              then ReleaseDevices(old(activeTransfer), t.id, old(t.View()))
                                else old(activeTransfer)
    {
      if !Listed(t) || Final(t.state) { return []; }
      ReleaseTransferDevices(t);
      peers := t.End(final, now);
    }

    method Expire(t: TransferObject, now: Clock) returns (outcome: Outcome)
      modifies t
      ensures (t.View(), outcome) == ExpireRegion(Listed(t), old(t.View()), now)
    {
      if !Listed(t) || Final(t.state) {
        t.history := t.history.(expirer := None);
        return Leave;
      }
      var idle := Wall(now) - t.updatedAt;
      if idle < IDLE_TIMEOUT {
        var remaining := IDLE_TIMEOUT - idle;
        t.timer := Some(now.mono + remaining);
        t.history := t.history.(expirer := None);
        return Leave;
      }
      return GiveUp;
    }

    // ----- History

    /** The inner loop of pruning: a final transfer that no other final one predates. */
    method OldestFinal() returns (oldest: Option<TransferId>)
      ensures oldest.None? ==> forall id :: id in transfers ==> !Final(transfers[id].state)
      ensures oldest.Some? ==>
                && oldest.value in transfers && Final(transfers[oldest.value].state)
                && forall id :: id in transfers && Final(transfers[id].state) ==>
                     transfers[oldest.value].updatedAt <= transfers[id].updatedAt
    {
      oldest := None;
      var rest := transfers.Keys;
      while rest != {}
        invariant rest <= transfers.Keys
        invariant oldest.None? ==> forall id :: id in transfers.Keys - rest ==> !Final(transfers[id].state)
        invariant oldest.Some? ==>
                    && oldest.value in transfers && Final(transfers[oldest.value].state)
                    && forall id :: id in transfers.Keys - rest && Final(transfers[id].state) ==>
                         transfers[oldest.value].updatedAt <= transfers[id].updatedAt
        decreases rest
      {
        var id :| id in rest;
        rest := rest - {id};
        if Final(transfers[id].state) {
          if oldest.None? || transfers[id].updatedAt < transfers[oldest.value].updatedAt {
            oldest := Some(id);
          }
        }
      }
    }

    /** Drops oldest final transfers until the table is below its limit or holds live ones only. */
    method PruneTransferHistory()
      modifies this`transfers
      ensures transfers.Keys <= old(transfers.Keys)
      ensures forall id :: id in transfers ==> transfers[id] == old(transfers)[id]
      ensures Pruned(old(Views(transfers)), old(transfers.Keys), transfers.Keys)
    {
      while |transfers| >= MAX_HISTORY
        invariant transfers.Keys <= old(transfers.Keys)
        invariant forall id :: id in transfers ==> transfers[id] == old(transfers)[id]
        invariant forall id :: id in old(transfers.Keys) - transfers.Keys ==> Final(old(transfers)[id].state)
        invariant forall id, other ::
                    id in old(transfers.Keys) - transfers.Keys && other in transfers
                    && Final(transfers[other].state) ==>
                      old(transfers)[id].updatedAt <= transfers[other].updatedAt
        invariant transfers.Keys != old(transfers.Keys) ==> |transfers| >= MAX_HISTORY - 1
        decreases |transfers|
      {
        var oldest := OldestFinal();
        if oldest.None? { return; }
        ghost var before := transfers.Keys;
        transfers := transfers - {oldest.value};
        assert transfers.Keys == before - {oldest.value};
      }
    }

    /** The reservation region of StartTransfer: nothing happens unless both devices are free. */
    method Publish(t: TransferObject) returns (busy: Option<Device>)
      requires t.id !in transfers
      modifies this
      ensures busy.Some? ==>
              busy.value in old(activeTransfer) && (busy.value == t.sourceDevice || busy.value == t.targetDevice)
      ensures busy.Some? ==> transfers == old(transfers) && activeTransfer == old(activeTransfer)
      ensures busy.None? ==>
                && t.sourceDevice !in old(activeTransfer) && t.targetDevice !in old(activeTransfer)
                && Listed(t)
                && activeTransfer == old(activeTransfer)[t.sourceDevice := t.id][t.targetDevice := t.id]
                && Pruned(old(Views(transfers)), old(transfers.Keys), transfers.Keys - {t.id})
                && forall id :: id in transfers && id != t.id ==> transfers[id] == old(transfers)[id]
    {
      if t.sourceDevice in activeTransfer { return Some(t.sourceDevice); }
      if t.targetDevice in activeTransfer { return Some(t.targetDevice); }
      PruneTransferHistory();
      ghost var kept := transfers.Keys;
      transfers := transfers[t.id := t];
      activeTransfer := activeTransfer[t.sourceDevice := t.id];
      activeTransfer := activeTransfer[t.targetDevice := t.id];
      assert transfers.Keys - {t.id} == kept;
      return None;
    }

    predicate Uses(t: TransferObject, device: Device) {
      t.sourceDevice == device || t.targetDevice == device
    }

    /** The ids failTransfersForDevice goes on to fail; without a device, those of cancelAllTransfers. */
    method CollectLive(device: Option<Device>) returns (ids: seq<TransferId>)
      ensures forall id :: id in ids <==>
                && id in transfers && !Final(transfers[id].state)
                && (device.Some? ==> Uses(transfers[id], device.value))
    {
      ids := [];
      var rest := transfers.Keys;
      while rest != {}
        invariant rest <= transfers.Keys
        invariant forall id :: id in ids <==>
                    && id in transfers.Keys - rest && !Final(transfers[id].state)
                    && (device.Some? ==> Uses(transfers[id], device.value))
        decreases rest
      {
        var id :| id in rest;
        rest := rest - {id};
        var t := transfers[id];
        if !Final(t.state) && (device.None? || Uses(t, device.value)) {
          ids := ids + [id];
        }
      }
    }
  }
}
