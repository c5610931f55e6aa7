/** The lock programs of the device package's entry points: which locks each takes, in which nesting,
    and where it waits for a peer. All of them obey the order of LockOrder, so its results apply to any
    number of them running together. */
module LockPrograms {
  import opened Common
  import opened LockOrder

  function Alone(l: Lock): Prog {
    With(l, Skip)
  }

  function Maybe(p: Prog): Prog {
    Choice(Skip, p)
  }

  function Chain(ps: seq<Prog>): Prog {
    if ps == [] then Skip else Seq(ps[0], Chain(ps[1..]))
  }

  // ----- Fragments

  /** Session.send */
  function Send(s: nat): Prog {
    With(SendMu(s), Maybe(Block))
  }

  /** httpTransport.SendTransferChunk: the slot is taken and cleared under chunkMu, the waits are outside it. */
  function HttpChunk(s: nat): Prog {
    Chain([Alone(ChunkMu(s)), Maybe(Chain([Block, Maybe(Block), Alone(ChunkMu(s))]))])
  }

  /** Session.sendTransferChunk over either transport. */
  function SendChunk(s: nat): Prog {
    With(SendMu(s), Maybe(Choice(Block, HttpChunk(s))))
  }

  /** httpTransport.Close */
  function CloseHttp(s: nat): Prog {
    With(TransportOnce(s), Maybe(Alone(HandlerMu)))
  }

  /** Session.close: the first caller closes the transport and empties the pending table. */
  function CloseSession(s: nat): Prog {
    With(SessionOnce(s), Maybe(Chain([Choice(Block, CloseHttp(s)), Alone(PendingMu(s))])))
  }

  /** A region under transferMu that may close the ready channel. */
  function EndRegion(id: nat): Prog {
    With(TransferMu, Maybe(Alone(ReadyOnce(id))))
  }

  /** A transfer and the two sessions its handlers may send to. */
  datatype Job = Job(id: nat, a: nat, b: nat)

  /** failTransferRelayLocked, and the tail of CancelTransfer. */
  function EndLocked(j: Job): Prog {
    Chain([EndRegion(j.id), Maybe(Send(j.a)), Maybe(Send(j.b))])
  }

  /** Look the transfer up, then work under its relayMu. */
  function Relayed(j: Job, body: Prog): Prog {
    Chain([Alone(TransferMu), Maybe(With(RelayMu(j.id), body))])
  }

  function EndTransfer(j: Job): Prog {
    Relayed(j, EndLocked(j))
  }

  function EndAll(jobs: seq<Job>): Prog {
    if jobs == [] then Skip else Seq(EndTransfer(jobs[0]), EndAll(jobs[1..]))
  }

  function CloseAll(sessions: seq<nat>): Prog {
    if sessions == [] then Skip else Seq(CloseSession(sessions[0]), CloseAll(sessions[1..]))
  }

  function DetachProgram(s: nat, jobs: seq<Job>): Prog {
    Chain([Alone(DeviceMu), CloseSession(s), Alone(TransferMu), EndAll(jobs)])
  }

  /** A send under relayMu whose failure fails the transfer. */
  function SendOrFail(j: Job, send: Prog): Prog {
    Chain([send, Maybe(EndLocked(j))])
  }

  /** The relay section of StartTransfer: the second start message goes out only if the first did. */
  function StartSection(j: Job): Prog {
    Chain([Send(j.b), Choice(EndLocked(j), SendOrFail(j, Send(j.a)))])
  }

  /** A region, then nothing, a failure, or a guarded send. */
  function RegionThenSend(j: Job, send: Prog): Prog {
    Chain([Alone(TransferMu), Maybe(Choice(EndLocked(j), SendOrFail(j, send)))])
  }

  // ----- Entry points

  datatype Handler =
    | StartTransfer(j: Job)
    | TransferStatus
    | CancelTransfer(j: Job)
    | Ready(j: Job)
    | RelayChunk(j: Job)
    | SourceFinish(j: Job)
    | TargetFinish(j: Job)
    | PeerFailed(j: Job)
    | Expire(j: Job)
    | Detach(s: nat, jobs: seq<Job>)
    | Close(jobs: seq<Job>, sessions: seq<nat>)
    | Registry                                   // Attach, List, resolve, touch, isAttached
    | Call(s: nat, jobs: seq<Job>)
    | Ping(s: nat)
    | Receive(s: nat)
    | HttpSession                                // hello, lookup
    | GetChunk(s: nat)
    | PostChunk(j: Job)
    | AckChunk(s: nat)
    | PollOrPost                                 // handlePoll, handleMessage
    | Monitor(s: nat, pings: nat, jobs: seq<Job>)
    | Serve(s: nat, received: seq<Handler>, jobs: seq<Job>)

  function Program(h: Handler): Prog
    decreases h
  {
    match h
    case StartTransfer(j) =>
      Chain([Alone(DeviceMu), Alone(DeviceMu), Alone(TransferMu), Maybe(StartBody(j))])
    case TransferStatus => Alone(TransferMu)
    case CancelTransfer(j) => EndTransfer(j)
    case Ready(j) => Relayed(j, Chain([EndRegion(j.id), Maybe(SendOrFail(j, Send(j.a)))]))
    case RelayChunk(j) => Relayed(j, RegionThenSend(j, ChunkAndRecord(j)))
    case SourceFinish(j) => Choice(EndTransfer(j), Relayed(j, RegionThenSend(j, Send(j.b))))
    case TargetFinish(j) => Chain([Alone(TransferMu), Maybe(EndTransfer(j))])
    case PeerFailed(j) => Chain([Alone(TransferMu), Maybe(EndTransfer(j))])
    case Expire(j) => Relayed(j, Chain([Alone(TransferMu), Maybe(EndLocked(j))]))
    case Detach(s, jobs) => DetachProgram(s, jobs)
    case Close(jobs, sessions) => Chain([Alone(TransferMu), EndAll(jobs), Alone(DeviceMu), CloseAll(sessions)])
    case Registry => Alone(DeviceMu)
    case Call(s, jobs) =>
      Chain([Alone(DeviceMu), Alone(PendingMu(s)), Send(s), Maybe(Alone(PendingMu(s))), Block,
          Maybe(DetachProgram(s, jobs))])
    case Ping(s) => PingProgram(s)
    case Receive(s) => Chain([Block, Alone(DeviceMu), Maybe(Alone(PendingMu(s))), Maybe(Block)])
    case HttpSession => Chain([Alone(DeviceMu), Alone(HandlerMu)])
    case GetChunk(s) => Chain([Alone(HandlerMu), Alone(ChunkMu(s)), Block])
    case PostChunk(j) => Chain([Alone(HandlerMu), Block, Relayed(j, RegionThenSend(j, ChunkAndRecord(j)))])
    case AckChunk(s) => Chain([Alone(HandlerMu), Alone(ChunkMu(s)), Maybe(Block)])
    case PollOrPost => Chain([Alone(HandlerMu), Block])
    case Monitor(s, pings, jobs) => Seq(Pings(s, pings), Maybe(DetachProgram(s, jobs)))
    case Serve(s, received, jobs) => Seq(ReadLoop(s, received), DetachProgram(s, jobs))
  }

  function PingProgram(s: nat): Prog {
    Chain([Alone(DeviceMu), Alone(PendingMu(s)), Send(s), Block, Maybe(Alone(PendingMu(s)))])
  }

  /** The heartbeat: wait for the tick, and ping unless a call is active. */
  function Pings(s: nat, n: nat): Prog {
    if n == 0 then Skip else Seq(Seq(Block, Maybe(PingProgram(s))), Pings(s, n - 1))
  }

  /** The sole reader handles one message after the other. */
  function ReadLoop(s: nat, received: seq<Handler>): Prog
    decreases received
  {
    if received == [] then Block else Seq(Program(received[0]), ReadLoop(s, received[1..]))
  }

  /** StartTransfer once the transfer is published. */
  function StartBody(j: Job): Prog {
    Chain([With(RelayMu(j.id), StartSection(j)), Block, Choice(Alone(TransferMu), EndTransfer(j))])
  }

  /** The send of a chunk and the region that records its success. */
  function ChunkAndRecord(j: Job): Prog {
    Chain([SendChunk(j.b), Maybe(Alone(TransferMu))])
  }

  // ----- The order discipline, fragment by fragment

  /** What may be held around the fragments below: nothing, or one relayMu. */
  predicate Outer(held: seq<Lock>) {
    held == [] || (|held| == 1 && held[0].RelayMu?)
  }

  lemma {:induction false} ChainOrdered(ps: seq<Prog>, held: seq<Lock>)
    requires forall i :: 0 <= i < |ps| ==> Ordered(ps[i], held)
    ensures Ordered(Chain(ps), held)
  {
    if ps != [] { ChainOrdered(ps[1..], held); }
  }

  lemma AloneOrdered(l: Lock, held: seq<Lock>)
    requires CanTake(held, l)
    ensures Ordered(Alone(l), held) && Ordered(Maybe(Alone(l)), held)
  {
  }

  lemma SendOrdered(s: nat, held: seq<Lock>)
    requires Outer(held)
    ensures Ordered(Send(s), held)
  {
    assert Ordered(Maybe(Block), held + [SendMu(s)]);
  }

  lemma SendChunkOrdered(s: nat, held: seq<Lock>)
    requires Outer(held)
    ensures Ordered(SendChunk(s), held)
  {
    var inner := held + [SendMu(s)];
    AloneOrdered(ChunkMu(s), inner);
    assert Ordered(Block, inner) && Ordered(Maybe(Block), inner);
    ChainOrdered([Block, Maybe(Block), Alone(ChunkMu(s))], inner);
    ChainOrdered([Alone(ChunkMu(s)), Maybe(Chain([Block, Maybe(Block), Alone(ChunkMu(s))]))], inner);
    assert Ordered(Choice(Block, HttpChunk(s)), inner);
  }

  lemma EndLockedOrdered(j: Job, held: seq<Lock>)
    requires Outer(held)
    ensures Ordered(EndRegion(j.id), held) && Ordered(EndLocked(j), held)
  {
    AloneOrdered(ReadyOnce(j.id), held + [TransferMu]);
    SendOrdered(j.a, held);
    SendOrdered(j.b, held);
    ChainOrdered([EndRegion(j.id), Maybe(Send(j.a)), Maybe(Send(j.b))], held);
  }

  lemma RelayedOrdered(j: Job, body: Prog)
    requires Ordered(body, [RelayMu(j.id)])
    ensures Ordered(With(RelayMu(j.id), body), []) && Ordered(Relayed(j, body), [])
  {
    assert [] + [RelayMu(j.id)] == [RelayMu(j.id)];
    assert Ordered(With(RelayMu(j.id), body), []);
    AloneOrdered(TransferMu, []);
    ChainOrdered([Alone(TransferMu), Maybe(With(RelayMu(j.id), body))], []);
  }

  lemma EndTransferOrdered(j: Job)
    ensures Ordered(EndTransfer(j), []) && Ordered(Maybe(EndTransfer(j)), [])
  {
    EndLockedOrdered(j, [RelayMu(j.id)]);
    RelayedOrdered(j, EndLocked(j));
  }

  lemma SendOrFailOrdered(j: Job, send: Prog, held: seq<Lock>)
    requires Outer(held) && Ordered(send, held)
    ensures Ordered(SendOrFail(j, send), held) && Ordered(RegionThenSend(j, send), held)
  {
    EndLockedOrdered(j, held);
    ChainOrdered([send, Maybe(EndLocked(j))], held);
    AloneOrdered(TransferMu, held);
    assert Ordered(Choice(EndLocked(j), SendOrFail(j, send)), held);
    ChainOrdered([Alone(TransferMu), Maybe(Choice(EndLocked(j), SendOrFail(j, send)))], held);
  }

  lemma {:induction false} EndAllOrdered(jobs: seq<Job>)
    ensures Ordered(EndAll(jobs), [])
  {
    if jobs != [] {
      EndTransferOrdered(jobs[0]);
      EndAllOrdered(jobs[1..]);
    }
  }

  lemma CloseSessionOrdered(s: nat)
    ensures Ordered(CloseSession(s), [])
  {
    var h1, h2 := [SessionOnce(s)], [SessionOnce(s), TransportOnce(s)];
    assert [] + [SessionOnce(s)] == h1 && h1 + [TransportOnce(s)] == h2;
    AloneOrdered(HandlerMu, h2);
    assert Ordered(CloseHttp(s), h1);
    AloneOrdered(PendingMu(s), h1);
    assert Ordered(Choice(Block, CloseHttp(s)), h1);
    ChainOrdered([Choice(Block, CloseHttp(s)), Alone(PendingMu(s))], h1);
  }

  lemma {:induction false} CloseAllOrdered(sessions: seq<nat>)
    ensures Ordered(CloseAll(sessions), [])
  {
    if sessions != [] {
      CloseSessionOrdered(sessions[0]);
      CloseAllOrdered(sessions[1..]);
    }
  }

  lemma DetachOrdered(s: nat, jobs: seq<Job>)
    ensures Ordered(DetachProgram(s, jobs), []) && Ordered(Maybe(DetachProgram(s, jobs)), [])
  {
    CloseSessionOrdered(s);
    EndAllOrdered(jobs);
    ChainOrdered([Alone(DeviceMu), CloseSession(s), Alone(TransferMu), EndAll(jobs)], []);
  }

  lemma StartOrdered(j: Job)
    ensures Ordered(Program(StartTransfer(j)), [])
  {
    var held := [RelayMu(j.id)];
    SendOrdered(j.a, held);
    SendOrdered(j.b, held);
    EndLockedOrdered(j, held);
    SendOrFailOrdered(j, Send(j.a), held);
    ChainOrdered([Send(j.b), Choice(EndLocked(j), SendOrFail(j, Send(j.a)))], held);
    RelayedOrdered(j, StartSection(j));
    EndTransferOrdered(j);
    assert Ordered(Choice(Alone(TransferMu), EndTransfer(j)), []);
    ChainOrdered([With(RelayMu(j.id), StartSection(j)), Block, Choice(Alone(TransferMu), EndTransfer(j))], []);
    ChainOrdered([Alone(DeviceMu), Alone(DeviceMu), Alone(TransferMu), Maybe(StartBody(j))], []);
  }

  lemma ReadyOrdered(j: Job)
    ensures Ordered(Program(Ready(j)), [])
  {
    var held := [RelayMu(j.id)];
    SendOrdered(j.a, held);
    EndLockedOrdered(j, held);
    SendOrFailOrdered(j, Send(j.a), held);
    var body := Chain([EndRegion(j.id), Maybe(SendOrFail(j, Send(j.a)))]);
    ChainOrdered([EndRegion(j.id), Maybe(SendOrFail(j, Send(j.a)))], held);
    RelayedOrdered(j, body);
  }

  lemma ChunkOrdered(j: Job)
    ensures Ordered(Program(RelayChunk(j)), [])
  {
    var held := [RelayMu(j.id)];
    SendChunkOrdered(j.b, held);
    AloneOrdered(TransferMu, held);
    ChainOrdered([SendChunk(j.b), Maybe(Alone(TransferMu))], held);
    SendOrFailOrdered(j, ChunkAndRecord(j), held);
    RelayedOrdered(j, RegionThenSend(j, ChunkAndRecord(j)));
  }

  lemma FinishOrdered(j: Job)
    ensures Ordered(Program(SourceFinish(j)), [])
  {
    SendOrdered(j.b, [RelayMu(j.id)]);
    SendOrFailOrdered(j, Send(j.b), [RelayMu(j.id)]);
    RelayedOrdered(j, RegionThenSend(j, Send(j.b)));
    EndTransferOrdered(j);
  }

  lemma ExpireOrdered(j: Job)
    ensures Ordered(Program(Expire(j)), [])
  {
    var held := [RelayMu(j.id)];
    EndLockedOrdered(j, held);
    AloneOrdered(TransferMu, held);
    ChainOrdered([Alone(TransferMu), Maybe(EndLocked(j))], held);
    RelayedOrdered(j, Chain([Alone(TransferMu), Maybe(EndLocked(j))]));
  }

  lemma CallOrdered(s: nat, jobs: seq<Job>)
    ensures Ordered(Program(Call(s, jobs)), [])
  {
    SendOrdered(s, []);
    DetachOrdered(s, jobs);
    AloneOrdered(PendingMu(s), []);
    AloneOrdered(DeviceMu, []);
    assert Ordered(Block, []);
    ChainOrdered([Alone(DeviceMu), Alone(PendingMu(s)), Send(s), Maybe(Alone(PendingMu(s))), Block,
        Maybe(DetachProgram(s, jobs))], []);
  }

  lemma PingOrdered(s: nat)
    ensures Ordered(PingProgram(s), []) && Ordered(Maybe(PingProgram(s)), [])
  {
    SendOrdered(s, []);
    AloneOrdered(PendingMu(s), []);
    AloneOrdered(DeviceMu, []);
    assert Ordered(Block, []);
    ChainOrdered([Alone(DeviceMu), Alone(PendingMu(s)), Send(s), Block, Maybe(Alone(PendingMu(s)))], []);
  }

  lemma {:induction false} PingsOrdered(s: nat, n: nat)
    ensures Ordered(Pings(s, n), [])
  {
    if n > 0 {
      PingOrdered(s);
      assert Ordered(Seq(Block, Maybe(PingProgram(s))), []);
      PingsOrdered(s, n - 1);
    }
  }

  lemma {:induction false} ReadLoopOrdered(s: nat, received: seq<Handler>)
    ensures Ordered(ReadLoop(s, received), [])
    decreases received
  {
    if received != [] {
      HandlersOrdered(received[0]);
      ReadLoopOrdered(s, received[1..]);
    }
  }

  lemma PostOrdered(j: Job)
    ensures Ordered(Program(PostChunk(j)), [])
  {
    ChunkOrdered(j);
    AloneOrdered(HandlerMu, []);
    assert Ordered(Block, []);
    ChainOrdered([Alone(HandlerMu), Block, Relayed(j, RegionThenSend(j, ChunkAndRecord(j)))], []);
  }

  lemma ReceiveOrdered(s: nat)
    ensures Ordered(Program(Receive(s)), [])
  {
    AloneOrdered(PendingMu(s), []);
    AloneOrdered(DeviceMu, []);
    assert Ordered(Block, []) && Ordered(Maybe(Block), []);
    ChainOrdered([Block, Alone(DeviceMu), Maybe(Alone(PendingMu(s))), Maybe(Block)], []);
  }

  lemma PollOrdered(s: nat)
    ensures Ordered(Program(GetChunk(s)), []) && Ordered(Program(AckChunk(s)), [])
  {
    AloneOrdered(ChunkMu(s), []);
    AloneOrdered(HandlerMu, []);
    assert Ordered(Block, []) && Ordered(Maybe(Block), []);
    ChainOrdered([Alone(HandlerMu), Alone(ChunkMu(s)), Block], []);
    ChainOrdered([Alone(HandlerMu), Alone(ChunkMu(s)), Maybe(Block)], []);
  }

  /** Every entry point obeys the lock order and waits for peers only under locks that may stall. */
  lemma {:induction false} HandlersOrdered(h: Handler)
    ensures Ordered(Program(h), [])
    decreases h
  {
    match h
    case StartTransfer(j) => StartOrdered(j);
    case Ready(j) => ReadyOrdered(j);
    case RelayChunk(j) => ChunkOrdered(j);
    case SourceFinish(j) => FinishOrdered(j);
    case Expire(j) => ExpireOrdered(j);
    case CancelTransfer(j) => EndTransferOrdered(j);
    case TargetFinish(j) => ReportOrdered(j);
    case PeerFailed(j) => ReportOrdered(j);
    case Detach(s, jobs) => DetachOrdered(s, jobs);
    case Close(jobs, sessions) => CloseOrdered(jobs, sessions);
    case Call(s, jobs) => CallOrdered(s, jobs);
    case Ping(s) => PingOrdered(s);
    case Receive(s) => ReceiveOrdered(s);
    case GetChunk(s) => PollOrdered(s);
    case PostChunk(j) => PostOrdered(j);
    case AckChunk(s) => PollOrdered(s);
    case Monitor(s, pings, jobs) => PingsOrdered(s, pings); DetachOrdered(s, jobs);
    case Serve(s, received, jobs) => ReadLoopOrdered(s, received); DetachOrdered(s, jobs);
    case HttpSession => ChainOrdered([Alone(DeviceMu), Alone(HandlerMu)], []);
    case PollOrPost => assert Ordered(Block, []); ChainOrdered([Alone(HandlerMu), Block], []);
    case TransferStatus =>
    case Registry =>
  }

  lemma ReportOrdered(j: Job)
    ensures Ordered(Program(TargetFinish(j)), []) && Ordered(Program(PeerFailed(j)), [])
  {
    EndTransferOrdered(j);
    ChainOrdered([Alone(TransferMu), Maybe(EndTransfer(j))], []);
  }

  lemma CloseOrdered(jobs: seq<Job>, sessions: seq<nat>)
    ensures Ordered(Program(Close(jobs, sessions)), [])
  {
    EndAllOrdered(jobs);
    CloseAllOrdered(sessions);
    ChainOrdered([Alone(TransferMu), EndAll(jobs), Alone(DeviceMu), CloseAll(sessions)], []);
  }

  /** A run in which every thread executes one of the entry points. */
  ghost predicate IsHandlerRun(run: seq<Threads>) {
    && run != [] && run[0] == map[]
    && forall i, j {:trigger HandlerLinked(run[i], run[j])} :: 0 <= i && i + 1 == j < |run| ==>
        HandlerLinked(run[i], run[j])
  }

  ghost predicate HandlerLinked(w: Threads, w': Threads) {
    || (exists u: nat, h :: u !in w && w' == w[u := Thread([], [Do(Program(h))])])
    || (exists u: nat, left :: Next(w, w', Go(u, left)))
  }

  lemma HandlerRunsAreRuns(run: seq<Threads>)
    requires IsHandlerRun(run)
    ensures IsRun(run)
  {
    forall i, j | 0 <= i && i + 1 == j < |run| ensures Linked(run[i], run[j]) {
      assert HandlerLinked(run[i], run[j]);
      if u: nat, h :| u !in run[i] && run[j] == run[i][u := Thread([], [Do(Program(h))])] {
        HandlersOrdered(h);
        assert Next(run[i], run[j], Spawn(u, Program(h)));
      } else {
        var u: nat, left :| Next(run[i], run[j], Go(u, left));
      }
    }
  }

  /** However the gateway's entry points interleave, none is stuck on the others' locks: it can move, or waits in
      a line that ends at one that can. */
  lemma GatewayNeverDeadlocks(run: seq<Threads>, i: nat, u: nat)
    requires IsHandlerRun(run) && i < |run| && u in run[i] && run[i][u].todo != []
    ensures exists v, n: nat, w' :: BehindIn(run[i], u, v, n) && Next(run[i], w', Go(v, true))
  {
    HandlerRunsAreRuns(run);
    NoDeadlock(run, i, u);
  }

  /** transferMu is never held by a thread that waits for a peer. So whoever waits for it, such as a status
      query, is behind threads only that own such a lock and wait for no peer, the last of which can move. */
  lemma StatusNeverBehindAPeer(run: seq<Threads>, i: nat, u: nat)
    requires IsHandlerRun(run) && i < |run| && Waits(run[i], u) && Wants(run[i][u]) == Some(TransferMu)
    ensures forall h :: h in run[i] && TransferMu in run[i][h].held ==> Brisk(run[i][h])
    ensures forall v, n: nat :: n > 0 && BehindIn(run[i], u, v, n) ==> v in run[i] && Brisk(run[i][v])
    ensures exists v, n: nat :: n > 0 && BehindIn(run[i], u, v, n) && Enabled(run[i], v)
  {
    HandlerRunsAreRuns(run);
    forall h | h in run[i] && TransferMu in run[i][h].held ensures Brisk(run[i][h]) {
      OwnersAreBrisk(run, i, h, TransferMu);
    }
    LeafLocksNeverStall(run, i, u);
  }
}
