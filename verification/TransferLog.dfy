/** The language of message logs a transfer may produce. `Replay` runs an automaton over a log; the
    lemmas below say, in terms of log positions only, what an accepted log looks like. */
module TransferLog {
  import opened Common
  import opened TransferModel

  datatype Phase = Phase(sending: bool, payloads: seq<Bytes>, committed: Option<Report>, told: set<SessionId>)

  const START: Phase := Phase(false, [], None, {})

  function Total(payloads: seq<Bytes>): nat {
    if payloads == [] then 0 else Total(payloads[..|payloads| - 1]) + |payloads[|payloads| - 1]|
  }

  /** Transferred after these payloads have all passed the size guard one by one; None once one is refused. */
  function Admitted(size: nat, payloads: seq<Bytes>): Option<nat> {
    if payloads == [] then Some(0)
    else
      match Admitted(size, payloads[..|payloads| - 1])
      case None => None
      case Some(total) =>
        var length := |payloads[|payloads| - 1]|;
        if Overflows(total, length, size) then None else Some((total + length) % WORD)
  }

  /** Every payload fits into one message of a device. */
  ghost predicate Deliverable(payloads: seq<Bytes>) {
    forall k :: 0 <= k < |payloads| ==> |payloads[k]| <= MAX_PAYLOAD
  }

  lemma WordSum(a: nat, b: nat)
    ensures (a % WORD + b) % WORD == (a + b) % WORD
  {
  }

  /** The 64-bit guard lets a chunk pass only if it fits, as long as Size plus a maximal chunk is a word. */
  lemma GuardIsExact(total: nat, length: nat, size: nat)
    requires total <= size && length <= MAX_PAYLOAD && size + MAX_PAYLOAD < WORD
    ensures Overflows(total % WORD, length, size) <==> total + length > size
  {
  }

  /** What has been admitted never exceeds the size as a word, and is the sum of the lengths as a word. */
  lemma {:induction false} AdmittedIsSum(size: nat, payloads: seq<Bytes>)
    requires Admitted(size, payloads).Some?
    ensures Admitted(size, payloads).value == Total(payloads) % WORD && Admitted(size, payloads).value <= size
    ensures size + MAX_PAYLOAD < WORD && Deliverable(payloads) ==> Total(payloads) <= size
  {
    if payloads != [] {
      var front, last := payloads[..|payloads| - 1], payloads[|payloads| - 1];
      AdmittedIsSum(size, front);
      WordSum(Total(front), |last|);
      if size + MAX_PAYLOAD < WORD && Deliverable(payloads) {
        assert Deliverable(front) && |last| <= MAX_PAYLOAD;
        GuardIsExact(Total(front), |last|, size);
      }
    }
  }

  /** One more message: None when it is out of place. */
  function Advance(p: Phase, e: Event, src: SessionId, tgt: SessionId): Option<Phase> {
    match e.message
    case TargetStart => if e.to == tgt then Some(p) else None
    case SourceStart => if e.to == src then Some(p) else None
    case SendGo => if e.to == src && p == START then Some(p.(sending := true)) else None
    case Chunk(sequence, payload) =>
      if e.to == tgt && p.sending && p.committed.None? && p.told == {} && sequence == |p.payloads| % WORD then
        Some(p.(payloads := p.payloads + [payload]))
      else None
    case Commit(size, digest) =>
      if e.to == tgt && p.sending && p.committed.None? && p.told == {} && Total(p.payloads) % WORD == size then
        Some(p.(committed := Some(Report(size, digest))))
      else None
    case Cancel => if (e.to == src || e.to == tgt) && e.to !in p.told then Some(p.(told := p.told + {e.to})) else None
  }

  function Replay(log: seq<Event>, src: SessionId, tgt: SessionId): Option<Phase> {
    if log == [] then Some(START)
    else
      match Replay(log[..|log| - 1], src, tgt)
      case None => None
      case Some(p) => Advance(p, log[|log| - 1], src, tgt)
  }

  /** The payloads handed to the target, in order; an account of the log that knows no automaton. */
  function Payloads(log: seq<Event>): seq<Bytes> {
    if log == [] then []
    else
      Payloads(log[..|log| - 1]) + (if log[|log| - 1].message.Chunk? then [log[|log| - 1].message.payload] else [])
  }

  lemma PayloadsSnoc(log: seq<Event>, e: Event)
    ensures Payloads(log + [e]) == Payloads(log) + (if e.message.Chunk? then [e.message.payload] else [])
  {
    assert (log + [e])[..|log|] == log;
  }

  lemma ReplaySnoc(log: seq<Event>, e: Event, src: SessionId, tgt: SessionId)
    ensures Replay(log + [e], src, tgt) ==
            match Replay(log, src, tgt) case None => None case Some(p) => Advance(p, e, src, tgt)
  {
    assert (log + [e])[..|log|] == log;
  }

  /** A message that cancellation must not be followed by. */
  predicate MovesData(m: Message) {
    m.SendGo? || m.Chunk? || m.Commit?
  }

  /** Number of chunks among the first `n` messages. */
  function ChunksBefore(log: seq<Event>, n: nat): nat
    requires n <= |log|
  {
    if n == 0 then 0 else ChunksBefore(log, n - 1) + if log[n - 1].message.Chunk? then 1 else 0
  }

  lemma {:induction false} ChunksBeforePrefix(log: seq<Event>, m: nat, n: nat)
    requires n <= m <= |log|
    ensures ChunksBefore(log[..m], n) == ChunksBefore(log, n)
  {
    if n > 0 { ChunksBeforePrefix(log, m, n - 1); }
  }

  lemma {:induction false} ChunksBeforeMonotone(log: seq<Event>, m: nat, n: nat)
    requires m <= n <= |log|
    ensures ChunksBefore(log, m) <= ChunksBefore(log, n)
    ensures m < n && log[m].message.Chunk? ==> ChunksBefore(log, m) < ChunksBefore(log, n)
  {
    if m < n { ChunksBeforeMonotone(log, m, n - 1); }
  }

  /** No data moves to either peer once either has been told of the cancellation, and each is told once. */
  ghost predicate CancelIsLast(log: seq<Event>) {
    && (forall i, j :: 0 <= i < j < |log| && log[i].message.Cancel? ==> !MovesData(log[j].message))
    && (forall i, j :: 0 <= i < j < |log| && log[i].message.Cancel? && log[j].message.Cancel? ==>
        log[i].to != log[j].to)
  }

  /** Chunks carry the numbers 0, 1, 2, ... (as 64-bit words) in log order. */
  ghost predicate ChunksNumbered(log: seq<Event>) {
    forall i :: 0 <= i < |log| && log[i].message.Chunk? ==> log[i].message.sequence == ChunksBefore(log, i) % WORD
  }

  /** One SendGo before every chunk, every chunk before the one Commit. */
  ghost predicate DataInOrder(log: seq<Event>) {
    && (forall i, j :: 0 <= i < j < |log| && log[j].message.SendGo? ==> !MovesData(log[i].message))
    && (forall i, j :: 0 <= i < j < |log| && log[i].message.Commit? ==> !MovesData(log[j].message))
    && (forall j :: 0 <= j < |log| && (log[j].message.Chunk? || log[j].message.Commit?) ==>
          exists i :: 0 <= i < j && log[i].message.SendGo?)
  }

  /** Every message goes to the peer it is meant for. */
  ghost predicate Addressed(log: seq<Event>, src: SessionId, tgt: SessionId) {
    forall i :: 0 <= i < |log| ==>
      match log[i].message
      case TargetStart => log[i].to == tgt
      case SourceStart => log[i].to == src
      case SendGo => log[i].to == src
      case Chunk(_, _) => log[i].to == tgt
      case Commit(_, _) => log[i].to == tgt
      case Cancel => log[i].to == src || log[i].to == tgt
  }

  /** What the automaton's phase records about the log it has read. */
  ghost predicate PhaseReads(log: seq<Event>, p: Phase) {
    && p.sending == (exists i :: 0 <= i < |log| && log[i].message.SendGo?)
    && p.committed.Some? == (exists i :: 0 <= i < |log| && log[i].message.Commit?)
    && (forall i :: 0 <= i < |log| && log[i].message.Commit? ==>
          p.committed == Some(Report(log[i].message.size, log[i].message.digest)))
    && (forall s :: s in p.told <==> exists i :: 0 <= i < |log| && log[i] == Event(s, Cancel))
    && |p.payloads| == ChunksBefore(log, |log|)
    && (forall i :: 0 <= i < |log| && log[i].message.Chunk? ==>
          ChunksBefore(log, i) < |p.payloads| && log[i].message.payload == p.payloads[ChunksBefore(log, i)])
    && (!p.sending ==> p.payloads == [] && p.committed.None?)
  }

  ghost predicate WellOrdered(log: seq<Event>, src: SessionId, tgt: SessionId) {
    CancelIsLast(log) && ChunksNumbered(log) && DataInOrder(log) && Addressed(log, src, tgt)
  }

  lemma {:induction false} AcceptedLog(log: seq<Event>, src: SessionId, tgt: SessionId)
    requires Replay(log, src, tgt).Some?
    ensures PhaseReads(log, Replay(log, src, tgt).value)
    ensures WellOrdered(log, src, tgt)
  {
    if log != [] {
      var n := |log| - 1;
      var front := log[..n];
      AcceptedLog(front, src, tgt);
      var p, q := Replay(front, src, tgt).value, Replay(log, src, tgt).value;
      forall i | 0 <= i <= n ensures ChunksBefore(front, i) == ChunksBefore(log, i) {
        ChunksBeforePrefix(log, n, i);
      }
      assert Reads(log, p, q, src, tgt);
      PhaseStep(log, p, q, src, tgt);
      CancelStep(log, p, q, src, tgt);
      NumberStep(log, p, q, src, tgt);
      OrderStep(log, p, q, src, tgt);
    }
  }

  /** One message read: `front` led to phase `p`, and `log` is `front` followed by an admissible message. */
  ghost predicate Reads(log: seq<Event>, p: Phase, q: Phase, src: SessionId, tgt: SessionId) {
    && log != []
    && PhaseReads(log[..|log| - 1], p)
    && Advance(p, log[|log| - 1], src, tgt) == Some(q)
    && (forall i :: 0 <= i <= |log| - 1 ==> ChunksBefore(log[..|log| - 1], i) == ChunksBefore(log, i))
  }

  lemma PhaseStep(log: seq<Event>, p: Phase, q: Phase, src: SessionId, tgt: SessionId)
    requires Reads(log, p, q, src, tgt)
    ensures PhaseReads(log, q)
  {
  }

  lemma CancelStep(log: seq<Event>, p: Phase, q: Phase, src: SessionId, tgt: SessionId)
    requires Reads(log, p, q, src, tgt) && CancelIsLast(log[..|log| - 1])
    ensures CancelIsLast(log)
  {
  }

  lemma NumberStep(log: seq<Event>, p: Phase, q: Phase, src: SessionId, tgt: SessionId)
    requires Reads(log, p, q, src, tgt)
    requires ChunksNumbered(log[..|log| - 1]) && Addressed(log[..|log| - 1], src, tgt)
    ensures ChunksNumbered(log) && Addressed(log, src, tgt)
  {
    forall i | 0 <= i < |log| - 1 ensures log[..|log| - 1][i] == log[i] {}
  }

  lemma OrderStep(log: seq<Event>, p: Phase, q: Phase, src: SessionId, tgt: SessionId)
    requires Reads(log, p, q, src, tgt) && DataInOrder(log[..|log| - 1])
    ensures DataInOrder(log)
  {
  }

  lemma {:induction false} NthChunk(log: seq<Event>, n: nat, k: nat) returns (i: nat)
    requires n <= |log| && k < ChunksBefore(log, n)
    ensures i < n && log[i].message.Chunk? && ChunksBefore(log, i) == k
  {
    if ChunksBefore(log, n - 1) == k { i := n - 1; } else { i := NthChunk(log, n - 1, k); }
  }

  /** Any two chunks carry different numbers exactly when there are no more chunks than 64-bit words. */
  lemma ChunkNumbersDistinct(log: seq<Event>)
    requires ChunksNumbered(log)
    ensures (forall i, j :: 0 <= i < j < |log| && log[i].message.Chunk? && log[j].message.Chunk? ==>
               log[i].message.sequence != log[j].message.sequence)
            <==> ChunksBefore(log, |log|) <= WORD
  {
    if ChunksBefore(log, |log|) <= WORD {
      forall i, j | 0 <= i < j < |log| && log[i].message.Chunk? && log[j].message.Chunk?
        ensures log[i].message.sequence != log[j].message.sequence
      {
        ChunksBeforeMonotone(log, i, j);
        ChunksBeforeMonotone(log, j, |log|);
      }
    } else {
      var first := NthChunk(log, |log|, 0);
      var wrapped := NthChunk(log, |log|, WORD);
      assert log[first].message.sequence == log[wrapped].message.sequence;
      if wrapped < first { ChunksBeforeMonotone(log, wrapped, first); }
    }
  }
}
