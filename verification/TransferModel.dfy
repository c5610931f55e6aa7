/** One cross-device transfer: its fields, the messages it causes, and the code of every region that
    runs under `transferMu` (internal/device/transfer.go), written as functions on a transfer value.
    The class in TransferManager.dfy executes these regions in place; TransferEngine.dfy interleaves them. */
module TransferModel {
  import opened Common

  type TransferId = nat
  type SessionId = nat
  type ThreadId = nat
  type Time = nat
  datatype Device = Device(name: string)

  /** The two clocks. Timers run on the monotonic one, in nanoseconds; updates are dated by the wall clock, which is
      the monotonic one plus an offset that may be adjusted at any time. `low` and `high` are history: the least and
      the greatest offset so far. */
  datatype Reading = Reading(mono: Time, offset: int, low: int, high: int)
  type Clock = c: Reading | c.low <= c.offset <= c.high witness Reading(0, 0, 0, 0)

  function Wall(c: Clock): int {
    c.mono + c.offset
  }

  /** How far the wall clock has been stepped to and fro. */
  function Skew(c: Clock): nat {
    c.high - c.low
  }

  predicate Later(c: Clock, d: Clock) {
    c.mono <= d.mono && d.low <= c.low && c.high <= d.high
  }

  /** Largest payload a device can deliver in one chunk: an 8 MiB WebSocket frame less the
      28-byte ZTF1 header. HTTP chunks stop at 4 MiB. */
  const MAX_PAYLOAD: nat := 8388580

  /** Two minutes in nanoseconds. */
  const IDLE_TIMEOUT: nat := 120_000_000_000

  datatype State = Preparing | Running | Verifying | Completed | Failed | Cancelled

  predicate Final(s: State) {
    s == Completed || s == Failed || s == Cancelled
  }

  /** Position of a state in the order preparing, transferring, verifying, final. */
  function Rank(s: State): nat {
    match s
    case Preparing => 0
    case Running => 1
    case Verifying => 2
    case _ => 3
  }

  datatype Message =
    | TargetStart
    | SourceStart
    | SendGo
    | Chunk(sequence: nat, payload: Bytes)
    | Commit(size: nat, digest: string)
    | Cancel

  /** A message handed to the transport of session `to`. */
  datatype Event = Event(to: SessionId, message: Message)

  /** The size and raw digest carried by a finish message. */
  datatype Report = Report(size: nat, digest: string)

  /** What the program does not store but the properties talk about. */
  datatype History = History(
    src: SessionId,                // the sessions the transfer was created with
    tgt: SessionId,
    starter: ThreadId,             // the thread running StartTransfer
    log: seq<Event>,               // every message about this transfer, in hand-over order
    delivered: nat,                // chunks whose send returned without error
    unchecked: set<SessionId>,     // peers whose liveness StartTransfer has still to find out
    unreachable: set<SessionId>,   // peers whose session was found closed when a message was due to them
    expirer: Option<ThreadId>,     // the expire callback that has fired and not yet decided
    publishedAt: Time,
    progressAt: Time,              // the monotonic time of the last update
    sourceFinish: Option<Report>,  // the finish messages that were accepted
    targetFinish: Option<Report>)

  datatype Transfer = Transfer(
    sourceDevice: Device,
    targetDevice: Device,
    source: Option<SessionId>,
    target: Option<SessionId>,
    state: State,
    size: nat,
    transferred: nat,
    digest: string,
    sourceReady: bool,
    targetReady: bool,
    nextSeq: nat,
    readyClosed: bool,
    updatedAt: int,                // wall-clock time of the last update
    timer: Option<Time>,           // monotonic deadline of the armed timer
    relay: Option<ThreadId>,       // owner of relayMu
    history: History)

  // ----- Digests

  /** What strings.TrimSpace removes: Unicode white space. */
  predicate Blank(c: char) {
    var n := c as int;
    || 0x09 <= n <= 0x0D || n == 0x20 || n == 0x85 || n == 0xA0 || n == 0x1680 || 0x2000 <= n <= 0x200A
    || n == 0x2028 || n == 0x2029 || n == 0x202F || n == 0x205F || n == 0x3000
  }

  function TrimLeft(s: string): string {
    if s != [] && Blank(s[0]) then TrimLeft(s[1..]) else s
  }

  function TrimRight(s: string): string {
    if s != [] && Blank(s[|s| - 1]) then TrimRight(s[..|s| - 1]) else s
  }

  function LowerChar(c: char): char {
    if 'A' <= c <= 'Z' then (c as int - 'A' as int + 'a' as int) as char else c
  }

  function Lower(s: string): string {
    seq(|s|, i requires 0 <= i < |s| => LowerChar(s[i]))
  }

  /** The form in which the two digests are compared. */
  function Normalise(raw: string): string {
    Lower(TrimRight(TrimLeft(raw)))
  }

  predicate ValidDigest(d: string) {
    |d| == 64 && forall i :: 0 <= i < |d| ==> HexChar(d[i])
  }

  // ----- Regions under transferMu

  /** What a handler does after its region, still holding relayMu. */
  datatype Outcome = Leave | SendMessage(to: SessionId, message: Message) | GiveUp

  /** The update is dated. */
  function Updated(t: Transfer, now: Clock): Transfer {
    t.(updatedAt := Wall(now), history := t.history.(progressAt := now.mono))
  }

  function SourceReadyRegion(listed: bool, t: Transfer, from: SessionId, size: nat, now: Clock): (Transfer, Outcome) {
    if !listed || Final(t.state) || t.source != Some(from) || t.state != Preparing then (t, Leave)
    else
      var t1 := Updated(t, now).(sourceReady := true, size := size);
      if t.targetReady then (t1.(state := Running, readyClosed := true), SendMessage(from, SendGo))
      else (t1, Leave)
  }

  function TargetReadyRegion(listed: bool, t: Transfer, from: SessionId, now: Clock): (Transfer, Outcome) {
    if !listed || Final(t.state) || t.target != Some(from) || t.state != Preparing then (t, Leave)
    else
      var t1 := Updated(t, now).(targetReady := true);
      if t.sourceReady then
        (t1.(state := Running, readyClosed := true),
         if t.source.Some? then SendMessage(t.source.value, SendGo) else Leave)
      else (t1, Leave)
  }

  /** The guard of line 397: the sum is a 64-bit sum. */
  predicate Overflows(transferred: nat, length: nat, size: nat) {
    (transferred + length) % WORD > size
  }

  function ChunkRegion(listed: bool, t: Transfer, from: SessionId, sequence: nat, payload: Bytes): Outcome {
    if !listed || Final(t.state) || t.state != Running || t.source != Some(from) then Leave
    else if sequence != t.nextSeq then GiveUp
    else if Overflows(t.transferred, |payload|, t.size) then GiveUp
    else if t.target.Some? then SendMessage(t.target.value, Chunk(sequence, payload))
    else Leave
  }

  /** The recheck of line 414. */
  predicate StillExpected(listed: bool, t: Transfer, sequence: nat) {
    listed && t.state == Running && t.nextSeq == sequence
  }

  function ChunkSentRegion(listed: bool, t: Transfer, sequence: nat, payload: Bytes, now: Clock): Transfer {
    if StillExpected(listed, t, sequence) then
      t.(nextSeq := (t.nextSeq + 1) % WORD,
         transferred := (t.transferred + |payload|) % WORD,
         updatedAt := Wall(now),
         history := t.history.(delivered := t.history.delivered + 1, progressAt := now.mono))
    else t
  }

  function SourceFinishRegion(listed: bool, t: Transfer, from: SessionId, size: nat, raw: string,
      now: Clock): (Transfer, Outcome) {
    if !listed || Final(t.state) || t.source != Some(from) || t.state != Running then (t, Leave)
    else if size != t.size || t.transferred != t.size then (t, GiveUp)
    else if t.target.None? then (t, Leave)
    else
      (t.(state := Verifying, digest := Normalise(raw), updatedAt := Wall(now),
          history := t.history.(sourceFinish := Some(Report(size, raw)), progressAt := now.mono)),
       SendMessage(t.target.value, Commit(size, Normalise(raw))))
  }

  datatype Verdict = Ignored | Mismatch | Accepted

  function TargetFinishVerdict(listed: bool, t: Transfer, from: SessionId, size: nat, raw: string): Verdict {
    if !listed || Final(t.state) || t.target != Some(from) || t.state != Verifying then Ignored
    else if size != t.size || Normalise(raw) != t.digest then Mismatch
    else Accepted
  }

  function Complete(t: Transfer, size: nat, raw: string, now: Clock): Transfer {
    t.(state := Completed, transferred := t.size, updatedAt := Wall(now), timer := None, source := None, target := None,
       history := t.history.(targetFinish := Some(Report(size, raw)), progressAt := now.mono))
  }

  /** The common tail of cancelling and failing. */
  function Finish(t: Transfer, state: State, now: Clock): Transfer {
    Updated(t, now).(state := state, timer := None, readyClosed := true, source := None, target := None)
  }

  function Peers(t: Transfer): seq<SessionId> {
    (if t.source.Some? then [t.source.value] else []) + (if t.target.Some? then [t.target.value] else [])
  }

  /** Cancelling and failing differ only in the final state; the result lists the peers to be told. */
  function EndRegion(listed: bool, t: Transfer, state: State, now: Clock): (Transfer, seq<SessionId>) {
    if !listed || Final(t.state) then (t, [])
    else (Finish(t, state, now), Peers(t))
  }

  function ExpireRegion(listed: bool, t: Transfer, now: Clock): (Transfer, Outcome) {
    if !listed || Final(t.state) then (t.(history := t.history.(expirer := None)), Leave)
    else if Wall(now) - t.updatedAt < IDLE_TIMEOUT then
      (t.(timer := Some(now.mono + (IDLE_TIMEOUT - (Wall(now) - t.updatedAt))),
          history := t.history.(expirer := None)), Leave)
    else (t, GiveUp)
  }

  function ReleaseDevices(active: map<Device, TransferId>, id: TransferId, t: Transfer): map<Device, TransferId> {
    map d | d in active && !(active[d] == id && (d == t.sourceDevice || d == t.targetDevice)) :: active[d]
  }

  function Created(a: Device, b: Device, source: SessionId, target: SessionId, starter: ThreadId, createdAt: Clock,
      now: Clock): Transfer {
    Transfer(a, b, Some(source), Some(target), Preparing, 0, 0, "", false, false, 0, false, Wall(createdAt),
             Some(now.mono + IDLE_TIMEOUT), None,
             History(source, target, starter, [], 0, {source, target}, {}, None, now.mono, createdAt.mono, None, None))
  }
}
