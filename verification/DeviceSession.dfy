/** The regions of manager.go's pending table and http.go's chunk slot, executed in place on objects.
    SessionCalls and HttpChunk interleave these regions. */
module DeviceSession {
  import opened Common
  import SessionCalls
  import HttpChunk

  /** A waiter and its channel of capacity one. */
  class PendingResponse {
    const kind: SessionCalls.Kind
    var ch: Option<SessionCalls.Response>

    constructor (kind: SessionCalls.Kind)
      ensures this.kind == kind && ch == None
    {
      this.kind := kind;
      ch := None;
    }
  }

  class PendingTable {
    var pending: map<nat, PendingResponse>
    var activeCalls: int
    var done: bool

    constructor ()
      ensures View() == SessionCalls.EMPTY && !done && Balance() == 0
    {
      pending, activeCalls, done := map[], 0, false;
      SessionCalls.EmptyBalance();
    }

    /** The table and the counter, as SessionCalls sees them. */
    ghost function View(): SessionCalls.Table
      reads this
    {
      SessionCalls.Table(map id | id in pending :: pending[id].kind, activeCalls)
    }

    /** How far the counter is ahead of the table: minus the callers yet to count themselves. */
    ghost function Balance(): int
      reads this
    {
      SessionCalls.BalanceOf(View())
    }

    method RegisterPending(id: nat, kind: SessionCalls.Kind) returns (r: Option<PendingResponse>)
      modifies this`pending
      ensures r.None? <==> done || id in old(pending)
      ensures r.None? ==> pending == old(pending)
      ensures r.Some? ==> fresh(r.value) && r.value.kind == kind && r.value.ch == None
      ensures r.Some? ==> pending == old(pending)[id := r.value]
      ensures View() == if r.None? then old(View()) else SessionCalls.Registered(old(View()), id, kind)
      ensures Balance() == old(Balance()) - if r.Some? && kind == SessionCalls.Call then 1 else 0
    {
      if done { return None; }
      if id in pending { return None; }
      SessionCalls.RegisteredBalance(View(), id, kind);
      var p := new PendingResponse(kind);
      pending := pending[id := p];
      return Some(p);
    }

    method CountCall()
      modifies this`activeCalls
      ensures View() == SessionCalls.Counted(old(View())) && Balance() == old(Balance()) + 1
    {
      activeCalls := activeCalls + 1;
    }

    /** The entry goes, and with it the call it counted. */
    method TakePending(id: nat) returns (p: Option<PendingResponse>)
      modifies this`pending, this`activeCalls
      ensures p == if id in old(pending) then Some(old(pending)[id]) else None
      ensures pending == old(pending) - {id} && View() == SessionCalls.Dropped(old(View()), id)
      ensures Balance() == old(Balance())
    {
      SessionCalls.DroppedBalance(View(), id);
      if id !in pending { return None; }
      var entry := pending[id];
      pending := pending - {id};
      if entry.kind == SessionCalls.Call {
        activeCalls := activeCalls - 1;
      }
      return Some(entry);
    }

    method UnregisterPending(id: nat)
      modifies this`pending, this`activeCalls
      ensures pending == old(pending) - {id} && View() == SessionCalls.Dropped(old(View()), id)
      ensures Balance() == old(Balance())
    {
      var _ := TakePending(id);
    }

    /** Only the first close does anything. */
    method Close()
      modifies this
      ensures done
      ensures old(done) ==> pending == old(pending) && activeCalls == old(activeCalls)
      ensures !old(done) ==> pending == map[] && View() == SessionCalls.EMPTY && Balance() == 0
    {
      if done { return; }
      done := true;
      pending := map[];
      activeCalls := 0;
      SessionCalls.EmptyBalance();
    }
  }

  /** An httpTransferChunk with its acknowledgement channel of capacity one. */
  class ChunkObject {
    const request: HttpChunk.Request
    const payload: Bytes
    var ack: Option<HttpChunk.Ack>

    constructor (request: HttpChunk.Request, payload: Bytes)
      ensures this.request == request && this.payload == payload && ack == None
    {
      this.request, this.payload, ack := request, payload, None;
    }

    /** The non-blocking send of a GET that could not write its body. */
    method TryReject() returns (sent: bool)
      modifies this
      ensures sent == old(ack.None?)
      ensures ack == HttpChunk.Offered(old(ack), HttpChunk.Reject)
    {
      if ack.Some? { return false; }
      ack := Some(HttpChunk.Reject);
      return true;
    }
  }

  class HttpTransport {
    var chunk: ChunkObject?

    /** The slot, as HttpChunk sees it. */
    ghost function Slot(): Option<ChunkObject>
      reads this
    {
      if chunk == null then None else Some(chunk)
    }

    /** The request of the chunk in the slot. */
    ghost function SlotNames(): Option<HttpChunk.Request>
      reads this
    {
      if chunk == null then None else Some(chunk.request)
    }

    constructor ()
      ensures chunk == null
    {
      chunk := null;
    }

    /** Takes the slot if it is free. */
    method Place(request: HttpChunk.Request, payload: Bytes) returns (placed: Option<ChunkObject>)
      modifies this
      ensures placed.None? <==> old(chunk) != null
      ensures placed.None? ==> chunk == old(chunk)
      ensures placed.Some? ==> chunk == placed.value && fresh(placed.value) && placed.value.request == request
                               && placed.value.payload == payload && placed.value.ack == None
    {
      if chunk != null { return None; }
      var c := new ChunkObject(request, payload);
      chunk := c;
      return Some(c);
    }

    /** The deferred clearing touches the slot only if it still holds this chunk. */
    method Clear(c: ChunkObject)
      modifies this
      ensures Slot() == HttpChunk.Cleared(old(Slot()), c)
    {
      if chunk == c { chunk := null; }
    }

    /** The chunk an acknowledgement or a GET may act on: the one in the slot, if it is the one named. */
    method Named(request: HttpChunk.Request) returns (c: Option<ChunkObject>)
      ensures c.Some? <==> SlotNames() == Some(request)
      ensures c.Some? ==> c.value == chunk
    {
      if chunk == null || chunk.request != request { return None; }
      return Some(chunk);
    }
  }
}
