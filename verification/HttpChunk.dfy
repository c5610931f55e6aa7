/** The one-slot chunk handshake of the HTTP transport (internal/device/http.go), driven through
    Session.sendTransferChunk (internal/device/manager.go). A step is one region under chunkMu, one channel
    operation, or one operation on sendMu. The handshake is shown to refine a synchronous send. */
module HttpChunk {
  import opened Common

  /** The chunk an acknowledgement or a GET names in its path. */
  datatype Request = Request(transfer: nat, sequence: nat)

  datatype Ack = Accept | Reject

  /** An httpTransferChunk. `acceptedBy` is history: the accepting acknowledgement put into its channel. */
  datatype Chunk = Chunk(
    request: Request,
    payload: Bytes,
    ack: Option<Ack>,
    acceptedBy: Option<Request>,
    rejected: bool)                                      // history: a rejection was put into the channel

  /** Why a send reports what it reports. */
  datatype Outcome = Accepted | Rejected | TimedOut | Closed | Unannounced

  datatype Pc =
    // a sender
    | WantSend(request: Request, payload: Bytes)         // before sendMu
    | Place(request: Request, payload: Bytes)            // before the slot is taken
    | Announce(request: Request, chunk: nat)             // before the transport_chunk message
    | Await(request: Request, chunk: nat)                // in the select
    | Clear(request: Request, chunk: nat, why: Outcome)  // before the deferred clearing
    | Return(request: Request, chunk: nat, why: Outcome) // before sendMu is given back; success if accepted
    | Refused                                            // session done, or slot taken: nothing was sent
    // any other message through Session.send
    | WantOther
    | Other
    // the device
    | AckLook(request: Request, ack: Ack)
    | AckSend(request: Request, chunk: nat, ack: Ack)
    | GetLook(request: Request)
    | GetWrite(request: Request, chunk: nat)

  datatype Link = Link(
    sendMu: Option<nat>,
    slot: Option<nat>,
    chunks: map<nat, Chunk>,
    threads: map<nat, Pc>,
    done: bool,                                          // Session.done
    closed: bool)                                        // httpTransport.done

  function Goto(s: Link, u: nat, pc: Pc): Link {
    s.(threads := s.threads[u := pc])
  }

  function Quit(s: Link, u: nat): Link {
    s.(threads := s.threads - {u})
  }

  predicate Entry(pc: Pc) {
    pc.WantSend? || pc.WantOther? || pc.AckLook? || pc.GetLook?
  }

  /** `Happens` resolves a select or the outcome of an I/O operation. */
  datatype Happens = Normally | TimesOut | Fails

  datatype Step = Spawn(u: nat, pc: Pc) | Detach | CloseTransport | Run(u: nat, how: Happens, newChunk: nat)

  /** The steps of threads that send through sendMu. */
  predicate Sends(pc: Pc) {
    pc.WantSend? || pc.WantOther? || OwnsSend(pc)
  }

  /** The deferred clearing of the slot. */
  function Cleared<K(==)>(slot: Option<K>, k: K): Option<K> {
    if slot == Some(k) then None else slot
  }

  /** A send on the acknowledgement channel that does not wait. */
  function Offered(channel: Option<Ack>, ack: Ack): Option<Ack> {
    if channel == None then Some(ack) else channel
  }

  /** The request of the chunk in the slot. */
  function SlotNames(s: Link): Option<Request> {
    if s.slot.Some? && s.slot.value in s.chunks then Some(s.chunks[s.slot.value].request) else None
  }

  ghost predicate SenderNext(s: Link, s': Link, u: nat, how: Happens, newChunk: nat)
    requires u in s.threads && Sends(s.threads[u])
  {
    match s.threads[u]
    case WantSend(request, payload) =>
      && s.sendMu == None
      && s' == Goto(s, u, if s.done then Refused else Place(request, payload)).(sendMu := Some(u))
    case Place(request, payload) =>
      if s.slot.Some? then s' == Goto(s, u, Refused)
      else
        && newChunk !in s.chunks
        && s' == Goto(s, u, Announce(request, newChunk)).(
                   slot := Some(newChunk),
                   chunks := s.chunks[newChunk := Chunk(request, payload, None, None, false)])
    case Announce(request, k) =>
      if how == Normally then s' == Goto(s, u, Await(request, k))
      else s.closed && s' == Goto(s, u, Clear(request, k, Unannounced))
    case Await(request, k) =>
      (match how
       case Normally =>
         && k in s.chunks && s.chunks[k].ack.Some?
         && s' == Goto(s, u, Clear(request, k, if s.chunks[k].ack.value == Accept then Accepted else Rejected)).(
                    chunks := s.chunks[k := s.chunks[k].(ack := None)])
       case TimesOut => s' == Goto(s, u, Clear(request, k, TimedOut))
       case Fails => s.closed && s' == Goto(s, u, Clear(request, k, Closed)))
    case Clear(request, k, why) =>
      s' == Goto(s, u, Return(request, k, why)).(slot := Cleared(s.slot, k))
    case Return(_, _, _) => s' == Quit(s, u).(sendMu := None)
    case Refused => s' == Quit(s, u).(sendMu := None)
    case WantOther => s.sendMu == None && s' == Goto(s, u, Other).(sendMu := Some(u))
    case Other => s' == Quit(s, u).(sendMu := None)
  }

  /** The steps of the device's HTTP requests. */
  ghost predicate DeviceNext(s: Link, s': Link, u: nat, how: Happens)
    requires u in s.threads && !Sends(s.threads[u])
  {
    match s.threads[u]
    case AckLook(request, ack) =>
      if SlotNames(s) == Some(request)
      then s' == Goto(s, u, AckSend(request, s.slot.value, ack))
      else s' == Quit(s, u)
    case AckSend(request, k, ack) =>
      && k in s.chunks
      && if how == Normally then
           && s.chunks[k].ack == None
           && s' == Quit(s, u).(chunks := s.chunks[k := s.chunks[k].(
                                  ack := Some(ack),
                                  acceptedBy := if ack == Accept then Some(request) else s.chunks[k].acceptedBy,
                                  rejected := s.chunks[k].rejected || ack == Reject)])
         else s' == Quit(s, u)  // closed or request gone
    case GetLook(request) =>
      if SlotNames(s) == Some(request)
      then s' == Goto(s, u, GetWrite(request, s.slot.value))
      else s' == Quit(s, u)
    case GetWrite(request, k) =>
      && k in s.chunks
      && s' == if how == Fails
               then Quit(s, u).(chunks := s.chunks[k := s.chunks[k].(
                                                  ack := Offered(s.chunks[k].ack, Reject),
                                                  rejected := s.chunks[k].rejected || s.chunks[k].ack == None)])
               else Quit(s, u)
  }

  ghost predicate Next(s: Link, s': Link, step: Step) {
    match step
    case Spawn(u, pc) => u !in s.threads && Entry(pc) && s' == Goto(s, u, pc)
    case Detach => s' == s.(done := true)
    case CloseTransport => s' == s.(closed := true)
    case Run(u, how, newChunk) =>
      && u in s.threads
      && if Sends(s.threads[u]) then SenderNext(s, s', u, how, newChunk) else DeviceNext(s, s', u, how)
  }

  ghost predicate Linked(s: Link, s': Link) {
    exists step :: Next(s, s', step)
  }

  ghost predicate IsRun(run: seq<Link>) {
    && run != [] && run[0] == Link(None, None, map[], map[], false, false)
    && forall i, j {:trigger Linked(run[i], run[j])} :: 0 <= i && i + 1 == j < |run| ==> Linked(run[i], run[j])
  }

  // ----- Invariant

  predicate OwnsSend(pc: Pc) {
    pc.Place? || pc.Announce? || pc.Await? || pc.Clear? || pc.Return? || pc.Refused? || pc.Other?
  }

  ghost predicate ChunkOk(c: Chunk) {
    && (c.ack == Some(Accept) ==> c.acceptedBy.Some?) && (c.ack == Some(Reject) ==> c.rejected)
    && (c.acceptedBy.Some? ==> c.acceptedBy.value == c.request)
  }

  /** The device, or the end of the transport, gave reason for this outcome; a time-out needs none. */
  ghost predicate Justified(s: Link, c: Chunk, why: Outcome) {
    match why
    case Accepted => c.acceptedBy.Some?
    case Rejected => c.rejected
    case Closed => s.closed
    case Unannounced => s.closed
    case TimedOut => true
  }

  ghost predicate PcOk(s: Link, u: nat)
    requires u in s.threads
  {
    var pc := s.threads[u];
    && (OwnsSend(pc) <==> s.sendMu == Some(u))
    && match pc
       case Place(_, _) => s.slot == None
       case Announce(request, k) => s.slot == Some(k) && k in s.chunks && s.chunks[k].request == request
       case Await(request, k) => s.slot == Some(k) && k in s.chunks && s.chunks[k].request == request
       case Clear(request, k, why) =>
         s.slot == Some(k) && k in s.chunks && s.chunks[k].request == request && Justified(s, s.chunks[k], why)
       case Return(request, k, why) =>
         s.slot == None && k in s.chunks && s.chunks[k].request == request && Justified(s, s.chunks[k], why)
       case Refused => s.slot == None
       case Other => s.slot == None
       case AckSend(request, k, _) => k in s.chunks && s.chunks[k].request == request
       case GetWrite(request, k) => k in s.chunks && s.chunks[k].request == request
       case _ => true
  }

  ghost predicate Inv(s: Link) {
    && (forall u {:trigger PcOk(s, u)} :: u in s.threads ==> PcOk(s, u))
    && (forall k {:trigger ChunkOk(s.chunks[k])} :: k in s.chunks ==> ChunkOk(s.chunks[k]))
    && (s.sendMu.Some? ==> s.sendMu.value in s.threads)
    && (s.sendMu == None ==> s.slot == None)
  }

  /** What every step does to chunks: none disappears, is renamed, or loses its acceptance. */
  ghost predicate ChunksGrow(s: Link, s': Link) {
    forall k {:trigger s'.chunks[k]} {:trigger k in s'.chunks} :: k in s.chunks ==>
      && k in s'.chunks && s'.chunks[k].request == s.chunks[k].request && s'.chunks[k].payload == s.chunks[k].payload
      && (s.chunks[k].acceptedBy.Some? ==> s'.chunks[k].acceptedBy.Some?)
      && (s.chunks[k].rejected ==> s'.chunks[k].rejected)
  }

  ghost predicate OthersStay(s: Link, s': Link, u: nat) {
    forall v :: v != u ==> (v in s'.threads <==> v in s.threads) && (v in s.threads ==> s'.threads[v] == s.threads[v])
  }

  /** A thread's knowledge survives the others' steps. */
  lemma Stable(s: Link, s': Link, u: nat, v: nat)
    requires v in s.threads && PcOk(s, v) && v != u && OthersStay(s, s', u) && ChunksGrow(s, s')
    requires s.closed ==> s'.closed
    requires s'.sendMu == Some(v) <==> s.sendMu == Some(v)
    requires s.sendMu == Some(v) ==> s'.slot == s.slot
    ensures PcOk(s', v)
  {
    assert s'.threads[v] == s.threads[v];
  }

  lemma SenderStep(s: Link, s': Link, u: nat, how: Happens, newChunk: nat)
    requires u in s.threads && Sends(s.threads[u]) && PcOk(s, u) && SenderNext(s, s', u, how, newChunk)
    requires s.sendMu == None ==> s.slot == None
    requires forall k {:trigger ChunkOk(s.chunks[k])} :: k in s.chunks ==> ChunkOk(s.chunks[k])
    ensures OthersStay(s, s', u) && (u in s'.threads ==> PcOk(s', u))
    ensures s'.sendMu == None || s'.sendMu == Some(u)
    ensures s.sendMu == None || s.sendMu == Some(u)
    ensures s'.sendMu == Some(u) ==> u in s'.threads
    ensures s'.sendMu == None ==> s'.slot == None
  {
    if s.threads[u].Await? { assert ChunkOk(s.chunks[s.threads[u].chunk]); }
  }

  lemma SenderChunks(s: Link, s': Link, u: nat, how: Happens, newChunk: nat)
    requires u in s.threads && Sends(s.threads[u]) && SenderNext(s, s', u, how, newChunk)
    requires forall k {:trigger ChunkOk(s.chunks[k])} :: k in s.chunks ==> ChunkOk(s.chunks[k])
    ensures ChunksGrow(s, s')
    ensures forall k :: k in s'.chunks ==> ChunkOk(s'.chunks[k])
  {
    forall k | k in s'.chunks ensures ChunkOk(s'.chunks[k]) {
      if k in s.chunks { assert ChunkOk(s.chunks[k]); }
    }
  }

  lemma DeviceStep(s: Link, s': Link, u: nat, how: Happens)
    requires u in s.threads && !Sends(s.threads[u]) && PcOk(s, u) && DeviceNext(s, s', u, how)
    ensures OthersStay(s, s', u) && (u in s'.threads ==> PcOk(s', u) && !Sends(s'.threads[u]))
    ensures s'.sendMu == s.sendMu && s'.slot == s.slot
  {
  }

  lemma DeviceChunks(s: Link, s': Link, u: nat, how: Happens)
    requires u in s.threads && !Sends(s.threads[u]) && PcOk(s, u) && DeviceNext(s, s', u, how)
    requires forall k {:trigger ChunkOk(s.chunks[k])} :: k in s.chunks ==> ChunkOk(s.chunks[k])
    ensures ChunksGrow(s, s')
    ensures forall k :: k in s'.chunks ==> ChunkOk(s'.chunks[k])
  {
    forall k | k in s'.chunks ensures ChunkOk(s'.chunks[k]) {
      if k in s.chunks { assert ChunkOk(s.chunks[k]); }
    }
  }

  lemma RunInv(s: Link, s': Link, u: nat, how: Happens, newChunk: nat)
    requires Inv(s) && Next(s, s', Run(u, how, newChunk))
    ensures Inv(s')
  {
    assert PcOk(s, u);
    if Sends(s.threads[u]) {
      SenderStep(s, s', u, how, newChunk);
      SenderChunks(s, s', u, how, newChunk);
    } else {
      DeviceStep(s, s', u, how);
      DeviceChunks(s, s', u, how);
    }
    forall v | v in s'.threads ensures PcOk(s', v) {
      if v != u {
        assert PcOk(s, v);
        Stable(s, s', u, v);
      }
    }
  }

  lemma NextInv(s: Link, s': Link, step: Step)
    requires Inv(s) && Next(s, s', step)
    ensures Inv(s')
  {
    if step.Run? {
      RunInv(s, s', step.u, step.how, step.newChunk);
    } else {
      forall v | v in s'.threads ensures PcOk(s', v) {
        if v in s.threads { assert PcOk(s, v); }
      }
      forall k | k in s'.chunks ensures ChunkOk(s'.chunks[k]) { assert ChunkOk(s.chunks[k]); }
    }
  }

  lemma {:induction false} Reachable(run: seq<Link>, i: nat)
    requires IsRun(run) && i < |run|
    ensures Inv(run[i])
  {
    if i > 0 {
      Reachable(run, i - 1);
      assert Linked(run[i - 1], run[i]);
      var step :| Next(run[i - 1], run[i], step);
      NextInv(run[i - 1], run[i], step);
    }
  }

  // ----- The synchronous send it refines

  /** One chunk at a time. `offered` is the device's answer that has not been taken, `accepted` says whether it has
      accepted the chunk, and `result` is what the send is about to report. */
  datatype Sync =
    | Idle
    | Busy(request: Request, payload: Bytes, offered: Option<Ack>, accepted: bool, result: Option<Outcome>)

  predicate SyncNext(a: Sync, b: Sync) {
    || a == b
    || (a.Idle? && b.Busy? && b.offered == None && !b.accepted && b.result == None)      // hand over
    || (a.Busy? && a.offered == None && (b == Answered(a, Accept) || b == Answered(a, Reject)))
    || (a.Busy? && a.result == None && a.offered.Some? && b == Taken(a))                 // the answer settles the send
    || (a.Busy? && a.result == None && b.Busy? && b == a.(result := b.result)            // or no answer is awaited
        && (b.result == Some(TimedOut) || b.result == Some(Closed) || b.result == Some(Unannounced)))
    || (a.Busy? && a.result.Some? && b.Idle?)                                            // the send returns
  }

  function Answered(a: Sync, ack: Ack): Sync
    requires a.Busy?
  {
    a.(offered := Some(ack), accepted := a.accepted || ack == Accept)
  }

  /** An accepting answer is success, a rejecting one is failure. */
  function Taken(a: Sync): Sync
    requires a.Busy? && a.offered.Some?
  {
    a.(offered := None, result := Some(if a.offered.value == Accept then Accepted else Rejected))
  }

  /** The chunk of the thread that owns the slot. */
  function InFlight(pc: Pc): Option<nat> {
    match pc
    case Announce(_, k) => Some(k)
    case Await(_, k) => Some(k)
    case Clear(_, k, _) => Some(k)
    case Return(_, k, _) => Some(k)
    case _ => None
  }

  function Result(pc: Pc): Option<Outcome> {
    match pc
    case Clear(_, _, why) => Some(why)
    case Return(_, _, why) => Some(why)
    case _ => None
  }

  ghost function Abstract(s: Link): Sync {
    if s.sendMu.Some? && s.sendMu.value in s.threads then AbstractOf(s, s.threads[s.sendMu.value]) else Idle
  }

  function AbstractOf(s: Link, pc: Pc): Sync {
    if InFlight(pc).Some? && InFlight(pc).value in s.chunks then
      var c := s.chunks[InFlight(pc).value];
      Busy(c.request, c.payload, c.ack, c.acceptedBy.Some?, Result(pc))
    else Idle
  }

  lemma SenderRefines(s: Link, s': Link, u: nat, how: Happens, newChunk: nat)
    requires u in s.threads && Sends(s.threads[u]) && PcOk(s, u) && SenderNext(s, s', u, how, newChunk)
    requires forall k {:trigger ChunkOk(s.chunks[k])} :: k in s.chunks ==> ChunkOk(s.chunks[k])
    ensures SyncNext(Abstract(s), Abstract(s'))
  {
    if s.threads[u].Await? { assert ChunkOk(s.chunks[s.threads[u].chunk]); }
  }

  lemma DeviceRefines(s: Link, s': Link, u: nat, how: Happens)
    requires u in s.threads && !Sends(s.threads[u]) && PcOk(s, u) && DeviceNext(s, s', u, how)
    requires s.sendMu.Some? ==> s.sendMu.value in s.threads && PcOk(s, s.sendMu.value)
    ensures SyncNext(Abstract(s), Abstract(s'))
  {
    if s.sendMu.Some? {
      var pc := s.threads[s.sendMu.value];
      assert s'.threads[s.sendMu.value] == pc;
      if s'.chunks == s.chunks {
        assert AbstractOf(s', pc) == AbstractOf(s, pc);
      } else {
        AnswerRefines(s, s', u, how, pc);
      }
    }
  }

  /** An answer reaches the chunk in flight as the device's, or concerns another. */
  lemma AnswerRefines(s: Link, s': Link, u: nat, how: Happens, pc: Pc)
    requires u in s.threads && !Sends(s.threads[u]) && DeviceNext(s, s', u, how) && s'.chunks != s.chunks
    ensures SyncNext(AbstractOf(s, pc), AbstractOf(s', pc))
  {
    var k := s.threads[u].chunk;
    if InFlight(pc) == Some(k) {
      assert s'.chunks[k].payload == s.chunks[k].payload && s'.chunks[k].request == s.chunks[k].request;
    } else {
      assert AbstractOf(s', pc) == AbstractOf(s, pc);
    }
  }

  /** Every step of the handshake is a step of the synchronous send, or invisible. */
  lemma Refines(s: Link, s': Link, step: Step)
    requires Inv(s) && Next(s, s', step)
    ensures SyncNext(Abstract(s), Abstract(s'))
  {
    if s.sendMu.Some? { assert PcOk(s, s.sendMu.value); }
    if step.Run? {
      assert PcOk(s, step.u);
      if Sends(s.threads[step.u]) {
        SenderRefines(s, s', step.u, step.how, step.newChunk);
      } else {
        DeviceRefines(s, s', step.u, step.how);
      }
    }
  }

  lemma RunsRefine(run: seq<Link>, i: nat)
    requires IsRun(run) && i + 1 < |run|
    ensures SyncNext(Abstract(run[i]), Abstract(run[i + 1]))
  {
    Reachable(run, i);
    assert Linked(run[i], run[i + 1]);
    var step :| Next(run[i], run[i + 1], step);
    Refines(run[i], run[i + 1], step);
  }

  /** What the abstract send takes in hand is the sender's own chunk, and it was idle until then. */
  lemma HandsOverOwnChunk(run: seq<Link>, i: nat, u: nat, how: Happens, newChunk: nat)
    requires IsRun(run) && i + 1 < |run| && u in run[i].threads && run[i].threads[u].Place?
    requires Next(run[i], run[i + 1], Run(u, how, newChunk))
    ensures Abstract(run[i]) == Idle
    ensures Abstract(run[i + 1]) == Busy(run[i].threads[u].request, run[i].threads[u].payload, None, false, None)
  {
    Reachable(run, i);
    assert PcOk(run[i], u);
  }

  // ----- What a sender may conclude

  /** A send that is about to return success was accepted by an acknowledgement naming exactly its chunk,
      delivered to exactly its chunk object; in the abstract send it is the accepted one. */
  lemma SuccessMeansAcknowledged(run: seq<Link>, i: nat, u: nat)
    requires IsRun(run) && i < |run| && u in run[i].threads
    requires run[i].threads[u].Return? && run[i].threads[u].why == Accepted
    ensures var pc := run[i].threads[u];
            && pc.chunk in run[i].chunks && run[i].chunks[pc.chunk].acceptedBy == Some(pc.request)
            && Abstract(run[i])
                 == Busy(pc.request, run[i].chunks[pc.chunk].payload, run[i].chunks[pc.chunk].ack, true, Some(Accepted))
  {
    Reachable(run, i);
    assert PcOk(run[i], u);
    assert ChunkOk(run[i].chunks[run[i].threads[u].chunk]);
  }

  /** The answer in the channel decides: an accepting one makes the send a success, a rejecting one a failure. */
  lemma AwaitDecides(run: seq<Link>, i: nat, u: nat, newChunk: nat)
    requires IsRun(run) && i + 1 < |run| && u in run[i].threads && run[i].threads[u].Await?
    requires Next(run[i], run[i + 1], Run(u, Normally, newChunk))
    ensures var pc := run[i].threads[u];
            && pc.chunk in run[i].chunks && run[i].chunks[pc.chunk].ack.Some? && u in run[i + 1].threads
            && run[i + 1].threads[u] ==
               Clear(pc.request, pc.chunk, if run[i].chunks[pc.chunk].ack == Some(Accept) then Accepted else Rejected)
  {
  }

  /** Whatever a send reports has its reason: an acceptance, a rejection of this very chunk, a time-out, or a
      transport that is closed. */
  lemma OutcomeJustified(run: seq<Link>, i: nat, u: nat)
    requires IsRun(run) && i < |run| && u in run[i].threads && run[i].threads[u].Return?
    ensures var pc := run[i].threads[u];
            && pc.chunk in run[i].chunks && run[i].chunks[pc.chunk].request == pc.request
            && (pc.why == Accepted ==> run[i].chunks[pc.chunk].acceptedBy == Some(pc.request))
            && (pc.why == Rejected ==> run[i].chunks[pc.chunk].rejected)
            && (pc.why == Closed || pc.why == Unannounced ==> run[i].closed)
  {
    Reachable(run, i);
    assert PcOk(run[i], u) && ChunkOk(run[i].chunks[run[i].threads[u].chunk]);
  }

  /** Every step of a sender: a detached session refuses, the chunk goes into the free slot as a new object, is
      announced, waits for its answer, and leaves the slot before the send returns what it found. */
  lemma SendDecides(run: seq<Link>, i: nat, u: nat, how: Happens, newChunk: nat)
    requires IsRun(run) && i + 1 < |run| && u in run[i].threads && Next(run[i], run[i + 1], Run(u, how, newChunk))
    ensures var s, s' := run[i], run[i + 1];
            match s.threads[u]
            case WantSend(request, payload) =>
              At(s', u, if s.done then Refused else Place(request, payload)) && s'.sendMu == Some(u)
            case Place(request, payload) =>
              && At(s', u, Announce(request, newChunk)) && s'.slot == Some(newChunk)
              && newChunk !in s.chunks && newChunk in s'.chunks && s'.chunks[newChunk].payload == payload
              && s'.chunks[newChunk].request == request && s'.chunks[newChunk].ack == None
            case Announce(request, k) =>
              if how == Normally then At(s', u, Await(request, k))
              else s.closed && At(s', u, Clear(request, k, Unannounced))
            case Await(request, k) =>
              && (how == TimesOut ==> At(s', u, Clear(request, k, TimedOut)))
              && (how == Fails ==> s.closed && At(s', u, Clear(request, k, Closed)))
            case Clear(request, k, why) => At(s', u, Return(request, k, why)) && s'.slot == None
            case Return(_, _, _) => u !in s'.threads && s'.sendMu == None && s'.slot == None
            case Refused => u !in s'.threads && s'.sendMu == None && s'.slot == None
            case _ => true
  {
    Reachable(run, i);
    assert PcOk(run[i], u);
  }

  predicate At(s: Link, u: nat, pc: Pc) {
    u in s.threads && s.threads[u] == pc
  }

  /** The slot holds a chunk of this name. */
  predicate Named(s: Link, request: Request) {
    s.slot.Some? && s.slot.value in s.chunks && s.chunks[s.slot.value].request == request
  }

  /** An acknowledgement for the chunk in the slot goes into its channel, and a GET for it is served from it, unless
      the request is gone; the device can neither answer nor fetch any other. A GET that fails rejects the chunk,
      unless it has been answered. */
  lemma DeviceDecides(run: seq<Link>, i: nat, u: nat, how: Happens, newChunk: nat)
    requires IsRun(run) && i + 1 < |run| && u in run[i].threads && Next(run[i], run[i + 1], Run(u, how, newChunk))
    ensures var s, s' := run[i], run[i + 1];
            match s.threads[u]
            case AckLook(request, ack) =>
              if Named(s, request) then At(s', u, AckSend(request, s.slot.value, ack)) else u !in s'.threads
            case AckSend(_, k, ack) =>
              && k in s'.chunks && u !in s'.threads
              && if how == Normally then s'.chunks[k].ack == Some(ack) else s'.chunks == s.chunks
            case GetLook(request) =>
              if Named(s, request) then At(s', u, GetWrite(request, s.slot.value)) else u !in s'.threads
            case GetWrite(_, k) =>
              && k in s.chunks && k in s'.chunks && u !in s'.threads
              && s'.chunks[k].ack == if how == Fails && s.chunks[k].ack == None then Some(Reject) else s.chunks[k].ack
            case _ => true
  {
    Reachable(run, i);
    assert PcOk(run[i], u);
  }

  /** "already pending" cannot happen under sendMu. */
  lemma SlotIsFree(run: seq<Link>, i: nat, u: nat)
    requires IsRun(run) && i < |run| && u in run[i].threads && run[i].threads[u].Place?
    ensures run[i].slot == None
  {
    Reachable(run, i);
    assert PcOk(run[i], u);
  }

  /** An acknowledgement on its way belongs to the chunk it named, and delivering it leaves every other
      chunk, and every later one, unacknowledged. */
  lemma LateAckHarmless(run: seq<Link>, i: nat, u: nat, other: nat)
    requires IsRun(run) && i + 1 < |run| && u in run[i].threads && run[i].threads[u].AckSend?
    requires Next(run[i], run[i + 1], Run(u, Normally, 0))
    requires other in run[i].chunks && other != run[i].threads[u].chunk
    ensures run[i].chunks[run[i].threads[u].chunk].request == run[i].threads[u].request
    ensures other in run[i + 1].chunks && run[i + 1].chunks[other] == run[i].chunks[other]
    ensures Abstract(run[i]).Busy? && Abstract(run[i]).request != run[i].threads[u].request ==>
            Abstract(run[i + 1]) == Abstract(run[i])
  {
    Reachable(run, i);
    assert PcOk(run[i], u);
    if run[i].sendMu.Some? { assert PcOk(run[i], run[i].sendMu.value); }
  }

  /** A GET that answers is answered with the payload of the chunk it named. */
  lemma GetServesNamedChunk(run: seq<Link>, i: nat, u: nat)
    requires IsRun(run) && i < |run| && u in run[i].threads && run[i].threads[u].GetWrite?
    ensures run[i].threads[u].chunk in run[i].chunks
    ensures run[i].chunks[run[i].threads[u].chunk].request == run[i].threads[u].request
  {
    Reachable(run, i);
    assert PcOk(run[i], u);
  }
}
