/** One session's pending-request table (internal/device/manager.go) under any interleaving of callers,
    heartbeats, readers and the one close. A step is one channel or counter operation, or one operation
    on the table made while holding pendingMu. */
module SessionCalls {
  import opened Common

  datatype Kind = Call | Ping

  /** A result or pong; `id` is what the device claims it answers. */
  datatype Response = Response(id: nat, body: nat)

  /** A pendingResponse object. The other fields are history: the thread that removed it from the table to answer it,
      the response it was removed for, how many responses were put in its channel, and what its caller read. */
  datatype Waiter = Waiter(
    id: nat,
    kind: Kind,
    ch: Option<Response>,
    taken: Option<nat>,
    answer: Option<Response>,
    sent: nat,
    got: Option<Response>)

  datatype Pc =
    | CheckDone(id: nat, kind: Kind)       // registerPending, before the select
    | Register(id: nat, kind: Kind)        // before pendingMu
    | Count(id: nat, waiter: nat)          // call: registered, before activeCalls.Add(1)
    | Sending(id: nat, waiter: nat)
    | Waiting(id: nat, waiter: nat)
    | Unregister(id: nat)                  // before pendingMu
    | UndoCount                            // entry deleted, before activeCalls.Add(-1); owns pendingMu
    | Reading
    | Take(r: Response)                    // takePending, before pendingMu
    | TookCall(waiter: nat, r: Response)   // entry deleted, before activeCalls.Add(-1); owns pendingMu
    | Deliver(waiter: nat, r: Response)    // before pending.ch <- response
    | CloseEmpty                           // done closed, before pendingMu
    | CloseStore                           // table replaced, before activeCalls.Store(0); owns pendingMu

  datatype Progress = Open | DoneClosed | Emptied | Stored

  datatype Session = Session(
    pending: map<nat, nat>,                // request id to waiter
    waiters: map<nat, Waiter>,
    activeCalls: int,
    mu: Option<nat>,                       // owner of pendingMu
    close: Progress,
    threads: map<nat, Pc>,
    nextId: nat,                           // Manager.nextCallID
    closer: Option<nat>,                   // history: the thread that runs close
    drift: int)                            // history: callers caught between Register and Count by the store

  function Goto(s: Session, u: nat, pc: Pc): Session {
    s.(threads := s.threads[u := pc])
  }

  function Quit(s: Session, u: nat): Session {
    s.(threads := s.threads - {u})
  }

  datatype Step =
    | Ask(u: nat, id: nat, kind: Kind)     // a new caller or heartbeat
    | StartReading(u: nat)
    | StartClose(u: nat)
    | Run(u: nat, ok: bool, newWaiter: nat, r: Response)

  ghost predicate RunNext(s: Session, s': Session, u: nat, ok: bool, newWaiter: nat, r: Response)
    requires u in s.threads
  {
    match s.threads[u]
    case CheckDone(id, kind) =>
      s' == if s.close == Open then Goto(s, u, Register(id, kind)) else Quit(s, u)
    case Register(id, kind) =>
      && s.mu == None
      && if id in s.pending then s' == Quit(s, u)
         else
           && newWaiter !in s.waiters
           && s' == Goto(s, u, if kind == Call then Count(id, newWaiter) else Sending(id, newWaiter)).(
                      pending := s.pending[id := newWaiter],
                      waiters := s.waiters[newWaiter := Waiter(id, kind, None, None, None, 0, None)])
    case Count(id, waiter) => s' == Goto(s, u, Sending(id, waiter)).(activeCalls := s.activeCalls + 1)
    case Sending(id, waiter) => s' == Goto(s, u, if ok then Waiting(id, waiter) else Unregister(id))
    case Waiting(id, waiter) =>
      && waiter in s.waiters
      && var w := s.waiters[waiter];
         if ok then
           w.ch.Some? && s' == Quit(s, u).(waiters := s.waiters[waiter := w.(ch := None, got := w.ch)])
         else
           // the request was cancelled, the heartbeat timed out, or the session is done
           s' == if w.kind == Call then Quit(s, u) else Goto(s, u, Unregister(id))
    case Unregister(id) =>
      && s.mu == None
      && if id !in s.pending || s.pending[id] !in s.waiters then s' == Quit(s, u)
         else if s.waiters[s.pending[id]].kind == Call then
           s' == Goto(s, u, UndoCount).(pending := s.pending - {id}, mu := Some(u))
         else s' == Quit(s, u).(pending := s.pending - {id})
    case UndoCount => s' == Quit(s, u).(activeCalls := s.activeCalls - 1, mu := None)
    case Reading => s' == Goto(s, u, Take(r))
    case Take(response) =>
      && s.mu == None
      && if response.id !in s.pending || s.pending[response.id] !in s.waiters then s' == Goto(s, u, Reading)
         else
           var waiter := s.pending[response.id];
           var w := s.waiters[waiter];
           var s1 := s.(pending := s.pending - {response.id},
                        waiters := s.waiters[waiter := w.(taken := Some(u), answer := Some(response))]);
           if w.kind == Call then s' == Goto(s1, u, TookCall(waiter, response)).(mu := Some(u))
           else s' == Goto(s1, u, Deliver(waiter, response))
    case TookCall(waiter, response) =>
      s' == Goto(s, u, Deliver(waiter, response)).(activeCalls := s.activeCalls - 1, mu := None)
    case Deliver(waiter, response) =>
      && waiter in s.waiters && s.waiters[waiter].ch == None
      && s' == Goto(s, u, Reading).(
                 waiters := s.waiters[waiter := s.waiters[waiter].(ch := Some(response),
                     sent := s.waiters[waiter].sent + 1)])
    case CloseEmpty =>
      s.mu == None && s' == Goto(s, u, CloseStore).(pending := map[], mu := Some(u), close := Emptied)
    case CloseStore =>
      s' == Quit(s, u).(activeCalls := 0, mu := None, close := Stored, drift := |Uncounted(s)|)
  }

  ghost predicate Next(s: Session, s': Session, step: Step) {
    match step
    case Ask(u, id, kind) =>
      u !in s.threads && id >= s.nextId && s' == Goto(s, u, CheckDone(id, kind)).(nextId := id + 1)
    case StartReading(u) => u !in s.threads && s' == Goto(s, u, Reading)
    case StartClose(u) => u !in s.threads && s.close == Open
        && s' == Goto(s, u, CloseEmpty).(close := DoneClosed, closer := Some(u))
    case Run(u, ok, newWaiter, r) => u in s.threads && RunNext(s, s', u, ok, newWaiter, r)
  }

  ghost predicate Linked(s: Session, s': Session) {
    exists step :: Next(s, s', step)
  }

  ghost predicate IsRun(run: seq<Session>) {
    && run != [] && run[0] == Session(map[], map[], 0, None, Open, map[], 0, None, 0)
    && forall i, j {:trigger Linked(run[i], run[j])} :: 0 <= i && i + 1 == j < |run| ==> Linked(run[i], run[j])
  }

  // ----- What is being counted

  /** Callers that have registered but not yet added themselves to the counter. */
  ghost function Uncounted(s: Session): set<nat> {
    set u | u in s.threads && s.threads[u].Count?
  }

  /** Pending entries of kind call. */
  ghost function CallEntries(s: Session): set<nat> {
    set id | id in s.pending && s.pending[id] in s.waiters && s.waiters[s.pending[id]].kind == Call
  }

  /** Threads that have deleted a call entry but not yet subtracted it. */
  ghost function Unsettled(s: Session): set<nat> {
    set u | u in s.threads && (s.threads[u].UndoCount? || s.threads[u].TookCall?)
  }

  ghost predicate Balanced(s: Session) {
    s.activeCalls + |Uncounted(s)| == |CallEntries(s)| + |Unsettled(s)|
  }

  // ----- Invariant

  predicate OwnsMu(pc: Pc) {
    pc.UndoCount? || pc.TookCall? || pc.CloseStore?
  }

  ghost predicate WaiterOk(s: Session, k: nat)
    requires k in s.waiters
  {
    var w := s.waiters[k];
    && w.sent <= 1
    && (w.taken == None ==> w.sent == 0) && (w.taken.Some? <==> w.answer.Some?)
    && (w.sent == 1 ==> w.answer.Some? && (w.ch == w.answer || (w.ch == None && w.got == w.answer)))
    && (w.sent == 0 ==> w.ch == None)
    && (w.ch.Some? ==> w.ch.value.id == w.id)
    && (w.got.Some? ==> w.got.value.id == w.id && w.sent == 1 && w.ch == None)
    && w.id < s.nextId
  }

  ghost predicate EntryOk(s: Session, id: nat)
    requires id in s.pending
  {
    var k := s.pending[id];
    id < s.nextId && k in s.waiters && s.waiters[k].id == id && s.waiters[k].taken == None
  }

  ghost predicate PcOk(s: Session, u: nat)
    requires u in s.threads
  {
    var pc := s.threads[u];
    && (OwnsMu(pc) <==> s.mu == Some(u))
    && match pc
       case CheckDone(id, _) => Unused(s, u, id)
       case Register(id, _) => Unused(s, u, id)
       case Waiting(_, k) => k in s.waiters
       case Sending(_, k) => k in s.waiters
       case Count(_, k) => k in s.waiters
       case TookCall(k, r) => InHand(s, u, k, r)
       case Deliver(k, r) => InHand(s, u, k, r)
       case CloseEmpty => s.close == DoneClosed && s.closer == Some(u)
       case CloseStore => s.close == Emptied && s.closer == Some(u) && s.pending == map[]
       case _ => true
  }

  /** The response is for this waiter, and nobody has answered it. */
  ghost predicate InHand(s: Session, u: nat, k: nat, r: Response) {
    && k in s.waiters && s.waiters[k].id == r.id && s.waiters[k].taken == Some(u) && s.waiters[k].sent == 0
    && s.waiters[k].answer == Some(r)
  }

  /** The id a thread is about to register belongs to nobody else. */
  ghost predicate Unused(s: Session, u: nat, id: nat) {
    && id < s.nextId && id !in s.pending
    && (forall v :: v in s.threads && v != u ==> Asking(s.threads[v]) != Some(id))
  }

  function Asking(pc: Pc): Option<nat> {
    match pc
    case CheckDone(id, _) => Some(id)
    case Register(id, _) => Some(id)
    case _ => None
  }

  ghost predicate CountOk(s: Session) {
    match s.close
    case Stored => s.activeCalls + |Uncounted(s)| == |CallEntries(s)| + |Unsettled(s)| + s.drift
    case Emptied => s.mu.Some? && s.mu.value in s.threads && s.threads[s.mu.value] == CloseStore
    case _ => Balanced(s) && s.drift == 0
  }

  /** A waiter that has been taken and not answered is in the hands of the reader that took it. */
  ghost predicate HandedOn(s: Session, k: nat)
    requires k in s.waiters
  {
    var w := s.waiters[k];
    w.taken.Some? && w.answer.Some? && w.sent == 0 ==>
      w.taken.value in s.threads && Holds(s.threads[w.taken.value], k, w.answer.value)
  }

  predicate Holds(pc: Pc, k: nat, r: Response) {
    pc == TookCall(k, r) || pc == Deliver(k, r)
  }

  ghost predicate HandsOk(s: Session) {
    forall k {:trigger HandedOn(s, k)} :: k in s.waiters ==> HandedOn(s, k)
  }

  ghost predicate ShapeOk(s: Session) {
    && (forall k {:trigger WaiterOk(s, k)} :: k in s.waiters ==> WaiterOk(s, k))
    && (forall id {:trigger EntryOk(s, id)} :: id in s.pending ==> EntryOk(s, id))
    && (forall u {:trigger PcOk(s, u)} :: u in s.threads ==> PcOk(s, u))
    && (s.mu.Some? ==> s.mu.value in s.threads)
  }

  ghost predicate Inv(s: Session) {
    ShapeOk(s) && CountOk(s) && HandsOk(s)
  }

  /** The facts about the acting thread, the entry it looks up and the owner of pendingMu that a step may need. */
  ghost predicate Actor(s: Session, step: Step) {
    && (s.mu.Some? ==> s.mu.value in s.threads && PcOk(s, s.mu.value))
    && (step.Run? && step.u in s.threads ==>
          && PcOk(s, step.u)
          && match s.threads[step.u]
             case Take(r) => r.id in s.pending ==> EntryOk(s, r.id) && WaiterOk(s, s.pending[r.id])
             case Unregister(id) => id in s.pending ==> EntryOk(s, id)
             case _ => true)
  }

  lemma ActorOk(s: Session, step: Step)
    requires ShapeOk(s)
    ensures Actor(s, step)
  {
  }

  lemma NewWaiter(s: Session, s': Session, step: Step, k: nat)
    requires Actor(s, step) && Next(s, s', step) && k in s'.waiters && k !in s.waiters
    ensures WaiterOk(s', k)
  {
  }

  lemma WaiterStep(s: Session, s': Session, step: Step, k: nat)
    requires Actor(s, step) && Next(s, s', step) && k in s'.waiters && k in s.waiters && WaiterOk(s, k)
    ensures WaiterOk(s', k)
  {
  }

  lemma EntryStep(s: Session, s': Session, step: Step, id: nat)
    requires Actor(s, step) && Next(s, s', step) && id in s'.pending
    requires id in s.pending ==> EntryOk(s, id)
    ensures EntryOk(s', id)
  {
  }

  /** Steps that edit the table or a channel. */
  predicate Edits(pc: Pc) {
    pc.Register? || pc.Unregister? || pc.Take? || pc.Deliver? || pc.CloseEmpty? || pc.Waiting?
  }

  lemma OtherQuiet(s: Session, s': Session, step: Step, v: nat)
    requires Actor(s, step) && Next(s, s', step) && v in s.threads && v != step.u && PcOk(s, v)
    requires step.Run? ==> !Edits(s.threads[step.u])
    ensures v in s'.threads && PcOk(s', v)
  {
    assert s'.waiters == s.waiters && s'.pending == s.pending && s'.threads[v] == s.threads[v];
    if step.Run? { assert s'.close == s.close || s.threads[step.u].CloseStore?; }
  }

  lemma OtherTable(s: Session, s': Session, step: Step, v: nat)
    requires Actor(s, step) && Next(s, s', step) && v in s.threads && v != step.u && PcOk(s, v)
    requires step.Run?
    requires s.threads[step.u].Register? || s.threads[step.u].Unregister? || s.threads[step.u].CloseEmpty?
    ensures v in s'.threads && PcOk(s', v)
  {
    assert s'.threads[v] == s.threads[v];
  }

  lemma OtherChannel(s: Session, s': Session, step: Step, v: nat)
    requires Actor(s, step) && Next(s, s', step) && v in s.threads && v != step.u && PcOk(s, v)
    requires step.Run? && (s.threads[step.u].Take? || s.threads[step.u].Deliver? || s.threads[step.u].Waiting?)
    ensures v in s'.threads && PcOk(s', v)
  {
    assert s'.threads[v] == s.threads[v] && s'.close == s.close && s'.closer == s.closer;
  }

  lemma OtherStep(s: Session, s': Session, step: Step, v: nat)
    requires Actor(s, step) && Next(s, s', step) && v in s.threads && v != step.u && PcOk(s, v)
    ensures v in s'.threads && PcOk(s', v)
  {
    if step.Run? && Edits(s.threads[step.u]) {
      if s.threads[step.u].Register? || s.threads[step.u].Unregister? || s.threads[step.u].CloseEmpty? {
        OtherTable(s, s', step, v);
      } else {
        OtherChannel(s, s', step, v);
      }
    } else {
      OtherQuiet(s, s', step, v);
    }
  }

  ghost predicate IdsBelow(s: Session) {
    && (forall v :: v in s.threads && Asking(s.threads[v]).Some? ==> Asking(s.threads[v]).value < s.nextId)
    && (forall id :: id in s.pending ==> id < s.nextId)
  }

  lemma OwnQuiet(s: Session, s': Session, step: Step)
    requires Actor(s, step) && Next(s, s', step) && step.u in s'.threads && IdsBelow(s)
    requires step.Run? ==> !Edits(s.threads[step.u])
    ensures PcOk(s', step.u)
  {
  }

  lemma OwnEdit(s: Session, s': Session, step: Step)
    requires Actor(s, step) && Next(s, s', step) && step.u in s'.threads
    requires step.Run? && Edits(s.threads[step.u])
    ensures PcOk(s', step.u)
  {
  }

  lemma ShapeStep(s: Session, s': Session, step: Step)
    requires ShapeOk(s) && Next(s, s', step)
    ensures ShapeOk(s')
  {
    ActorOk(s, step);
    forall k | k in s'.waiters ensures WaiterOk(s', k) {
      if k in s.waiters {
        assert WaiterOk(s, k);
        WaiterStep(s, s', step, k);
      } else {
        NewWaiter(s, s', step, k);
      }
    }
    forall id | id in s'.pending ensures EntryOk(s', id) {
      if id in s.pending { assert EntryOk(s, id); }
      EntryStep(s, s', step, id);
    }
    assert IdsBelow(s) by {
      forall v | v in s.threads ensures Asking(s.threads[v]).Some? ==> Asking(s.threads[v]).value < s.nextId {
        assert PcOk(s, v);
      }
      forall id | id in s.pending ensures id < s.nextId { assert EntryOk(s, id); }
    }
    forall v | v in s'.threads ensures PcOk(s', v) {
      if v == step.u {
        if step.Run? && Edits(s.threads[step.u]) { OwnEdit(s, s', step); } else { OwnQuiet(s, s', step); }
      } else {
        assert PcOk(s, v);
        OtherStep(s, s', step, v);
      }
    }
    MuStep(s, s', step);
  }

  lemma MuStep(s: Session, s': Session, step: Step)
    requires Actor(s, step) && Next(s, s', step)
    ensures s'.mu.Some? ==> s'.mu.value in s'.threads
  {
  }

  // ----- Counting

  function Counts(s: Session, u: nat): nat {
    if u in s.threads && s.threads[u].Count? then 1 else 0
  }

  function Settles(s: Session, u: nat): nat {
    if u in s.threads && (s.threads[u].UndoCount? || s.threads[u].TookCall?) then 1 else 0
  }

  function In(x: nat, a: set<nat>): nat {
    if x in a then 1 else 0
  }

  /** Two sets that agree except on `x`. */
  lemma SizeChange(a: set<nat>, b: set<nat>, x: nat)
    requires forall y :: y != x ==> (y in a <==> y in b)
    ensures |b| == |a| + In(x, b) - In(x, a)
  {
    if x in b { assert b == a + {x}; } else { assert b == a - {x}; }
  }

  /** Only thread `u` moves. */
  ghost predicate OnlyMoves(s: Session, s': Session, u: nat) {
    forall v :: v != u ==> (v in s'.threads <==> v in s.threads) && (v in s.threads ==> s'.threads[v] == s.threads[v])
  }

  lemma UncountedMoved(s: Session, s': Session, u: nat)
    requires OnlyMoves(s, s', u)
    ensures |Uncounted(s')| == |Uncounted(s)| + Counts(s', u) - Counts(s, u)
  {
    SizeChange(Uncounted(s), Uncounted(s'), u);
  }

  lemma UnsettledMoved(s: Session, s': Session, u: nat)
    requires OnlyMoves(s, s', u)
    ensures |Unsettled(s')| == |Unsettled(s)| + Settles(s', u) - Settles(s, u)
  {
    SizeChange(Unsettled(s), Unsettled(s'), u);
  }

  lemma ThreadsMoved(s: Session, s': Session, u: nat)
    requires OnlyMoves(s, s', u)
    ensures |Uncounted(s')| == |Uncounted(s)| + Counts(s', u) - Counts(s, u)
    ensures |Unsettled(s')| == |Unsettled(s)| + Settles(s', u) - Settles(s, u)
  {
    UncountedMoved(s, s', u);
    UnsettledMoved(s, s', u);
  }

  lemma EntriesKept(s: Session, s': Session)
    requires ShapeOk(s) && s'.pending == s.pending && s.waiters.Keys <= s'.waiters.Keys
    requires forall k :: k in s.waiters ==> s'.waiters[k].kind == s.waiters[k].kind
    ensures |CallEntries(s')| == |CallEntries(s)|
  {
    forall id | id in s.pending ensures s.pending[id] in s.waiters { assert EntryOk(s, id); }
    assert CallEntries(s') == CallEntries(s);
  }

  lemma EntryAdded(s: Session, s': Session, id: nat, k: nat)
    requires ShapeOk(s) && id !in s.pending && k !in s.waiters && k in s'.waiters
    requires s'.pending == s.pending[id := k] && s'.waiters == s.waiters[k := s'.waiters[k]]
    ensures |CallEntries(s')| == |CallEntries(s)| + if s'.waiters[k].kind == Call then 1 else 0
  {
    forall i | i in s.pending ensures s.pending[i] in s.waiters { assert EntryOk(s, i); }
    SizeChange(CallEntries(s), CallEntries(s'), id);
  }

  lemma EntryDeleted(s: Session, s': Session, id: nat)
    requires ShapeOk(s) && id in s.pending && s.pending[id] in s.waiters && s'.pending == s.pending - {id}
    requires s'.waiters.Keys == s.waiters.Keys
    requires forall k :: k in s.waiters ==> s'.waiters[k].kind == s.waiters[k].kind
    ensures |CallEntries(s')| == |CallEntries(s)| - if s.waiters[s.pending[id]].kind == Call then 1 else 0
  {
    SizeChange(CallEntries(s), CallEntries(s'), id);
  }

  /** Threads that edit no table: counter and channel operations. */
  predicate Quiet(pc: Pc) {
    !pc.Register? && !pc.Unregister? && !pc.Take? && !pc.CloseEmpty? && !pc.CloseStore?
  }

  lemma QuietTables(s: Session, s': Session, step: Step)
    requires Next(s, s', step) && (step.Run? ==> Quiet(s.threads[step.u]))
    ensures OnlyMoves(s, s', step.u) && s'.pending == s.pending && s.waiters.Keys == s'.waiters.Keys
    ensures forall k :: k in s.waiters ==> s'.waiters[k].kind == s.waiters[k].kind
  {
  }

  lemma QuietCounter(s: Session, s': Session, step: Step)
    requires Next(s, s', step) && (step.Run? ==> Quiet(s.threads[step.u]))
    ensures s'.activeCalls + Counts(s', step.u) - Settles(s', step.u)
            == s.activeCalls + Counts(s, step.u) - Settles(s, step.u)
    ensures s'.drift == s.drift && (s'.close == s.close || (s.close == Open && s'.close == DoneClosed))
  {
  }

  lemma CountQuiet(s: Session, s': Session, step: Step)
    requires ShapeOk(s) && Next(s, s', step) && (step.Run? ==> Quiet(s.threads[step.u]))
    ensures |CallEntries(s')| == |CallEntries(s)|
    ensures s'.activeCalls + |Uncounted(s')| - |Unsettled(s')| == s.activeCalls + |Uncounted(s)| - |Unsettled(s)|
    ensures s'.drift == s.drift && (s'.close == s.close || (s.close == Open && s'.close == DoneClosed))
  {
    QuietTables(s, s', step);
    QuietCounter(s, s', step);
    EntriesKept(s, s');
    ThreadsMoved(s, s', step.u);
  }

  lemma CountRegister(s: Session, s': Session, step: Step)
    requires ShapeOk(s) && Next(s, s', step) && step.Run? && s.threads[step.u].Register?
    ensures s'.activeCalls == s.activeCalls && s'.drift == s.drift && s'.close == s.close
    ensures |Uncounted(s')| - |CallEntries(s')| - |Unsettled(s')| == |Uncounted(s)| - |CallEntries(s)| - |Unsettled(s)|
  {
    var id := s.threads[step.u].id;
    ThreadsMoved(s, s', step.u);
    if id in s.pending { EntriesKept(s, s'); } else { EntryAdded(s, s', id, step.newWaiter); }
  }

  /** unregisterPending and takePending delete an entry and owe the counter one if it was a call. */
  lemma CountDelete(s: Session, s': Session, step: Step)
    requires ShapeOk(s) && Next(s, s', step) && step.Run? && (s.threads[step.u].Unregister? || s.threads[step.u].Take?)
    ensures s'.activeCalls == s.activeCalls && s'.drift == s.drift && s'.close == s.close
    ensures |Uncounted(s')| - |CallEntries(s')| - |Unsettled(s')| == |Uncounted(s)| - |CallEntries(s)| - |Unsettled(s)|
  {
    var pc := s.threads[step.u];
    var id := if pc.Take? then pc.r.id else pc.id;
    ThreadsMoved(s, s', step.u);
    if id in s.pending {
      assert EntryOk(s, id);
      EntryDeleted(s, s', id);
    } else {
      EntriesKept(s, s');
    }
  }

  lemma CountClose(s: Session, s': Session, step: Step)
    requires ShapeOk(s) && Next(s, s', step) && step.Run?
    requires s.threads[step.u].CloseEmpty? || s.threads[step.u].CloseStore?
    ensures CountOk(s')
  {
    var u := step.u;
    assert PcOk(s, u);
    if s.threads[u].CloseStore? {
      ThreadsMoved(s, s', u);
      forall v | v in s.threads ensures v !in Unsettled(s) { assert PcOk(s, v); }
      assert Unsettled(s) == {} && CallEntries(s') == {};
    }
  }

  lemma CountStep(s: Session, s': Session, step: Step)
    requires Inv(s) && Next(s, s', step)
    ensures CountOk(s')
  {
    if step.Run? && (s.threads[step.u].CloseEmpty? || s.threads[step.u].CloseStore?) {
      CountClose(s, s', step);
    } else if s.close == Emptied {
      ActorOk(s, step);
    } else if step.Run? && s.threads[step.u].Register? {
      CountRegister(s, s', step);
    } else if step.Run? && (s.threads[step.u].Unregister? || s.threads[step.u].Take?) {
      CountDelete(s, s', step);
    } else {
      CountQuiet(s, s', step);
    }
  }

  lemma HandsStep(s: Session, s': Session, step: Step)
    requires ShapeOk(s) && HandsOk(s) && Next(s, s', step)
    ensures HandsOk(s')
  {
    ActorOk(s, step);
    forall k | k in s'.waiters ensures HandedOn(s', k) {
      if k in s.waiters {
        assert HandedOn(s, k) && WaiterOk(s, k);
        HandStep(s, s', step, k);
      } else {
        NewHand(s, s', step, k);
      }
    }
  }

  lemma HandStep(s: Session, s': Session, step: Step, k: nat)
    requires Actor(s, step) && Next(s, s', step) && k in s.waiters && k in s'.waiters
    requires HandedOn(s, k) && WaiterOk(s, k)
    ensures HandedOn(s', k)
  {
    if step.Run? && Edits(s.threads[step.u]) {
      EditedHand(s, s', step, k);
    } else {
      QuietHand(s, s', step, k);
    }
  }

  lemma EditedHand(s: Session, s': Session, step: Step, k: nat)
    requires Actor(s, step) && Next(s, s', step) && k in s.waiters && k in s'.waiters
    requires HandedOn(s, k) && WaiterOk(s, k) && step.Run? && Edits(s.threads[step.u])
    ensures HandedOn(s', k)
  {
  }

  lemma QuietHand(s: Session, s': Session, step: Step, k: nat)
    requires Actor(s, step) && Next(s, s', step) && k in s.waiters && k in s'.waiters
    requires HandedOn(s, k) && (step.Run? ==> !Edits(s.threads[step.u]))
    ensures HandedOn(s', k)
  {
  }

  lemma NewHand(s: Session, s': Session, step: Step, k: nat)
    requires Actor(s, step) && Next(s, s', step) && k !in s.waiters && k in s'.waiters
    ensures HandedOn(s', k)
  {
  }

  lemma {:induction false} Reachable(run: seq<Session>, i: nat)
    requires IsRun(run) && i < |run|
    ensures Inv(run[i])
  {
    if i > 0 {
      Reachable(run, i - 1);
      assert Linked(run[i - 1], run[i]);
      var step :| Next(run[i - 1], run[i], step);
      ShapeStep(run[i - 1], run[i], step);
      CountStep(run[i - 1], run[i], step);
      HandsStep(run[i - 1], run[i], step);
    }
  }

  // ----- What the session guarantees

  /** On an open session the counter is exact up to the callers and readers that are between two instructions. */
  lemma ActiveCallsExact(run: seq<Session>, i: nat)
    requires IsRun(run) && i < |run| && (run[i].close == Open || run[i].close == DoneClosed)
    ensures Balanced(run[i])
  {
    Reachable(run, i);
  }

  /** The step in which close stores zero. */
  ghost predicate StoredAt(run: seq<Session>, j: int) {
    0 <= j && j + 1 < |run| && run[j].close == Emptied && run[j + 1].close == Stored
  }

  /** After close the counter is exact for ever if and only if no caller was between registering and
      counting itself when the close stored zero. */
  lemma ExactAfterClose(run: seq<Session>, i: nat)
    requires IsRun(run) && i < |run| && run[i].close == Stored
    ensures Balanced(run[i]) <==> run[i].drift == 0
    ensures exists j :: 0 <= j < i && StoredAt(run, j) && run[i].drift == |Uncounted(run[j])|
  {
    Reachable(run, i);
    DriftAtStore(run, i);
  }

  lemma {:induction false} DriftAtStore(run: seq<Session>, i: nat)
    requires IsRun(run) && i < |run| && run[i].close == Stored
    ensures exists j :: 0 <= j < i && StoredAt(run, j) && run[i].drift == |Uncounted(run[j])|
  {
    assert i > 0;
    assert Linked(run[i - 1], run[i]);
    var step :| Next(run[i - 1], run[i], step);
    Reachable(run, i - 1);
    DriftStep(run[i - 1], run[i], step);
    if run[i - 1].close == Stored {
      DriftAtStore(run, i - 1);
    } else {
      assert StoredAt(run, i - 1);
    }
  }

  lemma DriftStep(s: Session, s': Session, step: Step)
    requires ShapeOk(s) && Next(s, s', step) && s'.close == Stored
    ensures (s.close == Stored && s'.drift == s.drift) || (s.close == Emptied && s'.drift == |Uncounted(s)|)
  {
    ActorOk(s, step);
  }

  /** Each waiter is answered at most once, and what it reads carries its own id, whatever order responses come in. */
  lemma AnsweredOnceWithOwnId(run: seq<Session>, i: nat, k: nat)
    requires IsRun(run) && i < |run| && k in run[i].waiters
    ensures var w := run[i].waiters[k];
            && w.sent <= 1
            && (w.ch.Some? ==> w.ch.value.id == w.id)
            && (w.got.Some? ==> w.got.value.id == w.id)
            && !(w.ch.Some? && w.got.Some?)
  {
    Reachable(run, i);
    assert WaiterOk(run[i], k);
  }

  /** A response that was taken for a waiter is in its channel, or was read by its caller, or the reader that took it
      is about to deliver it; and it is that response, unchanged. */
  lemma TakenIsAnswered(run: seq<Session>, i: nat, k: nat)
    requires IsRun(run) && i < |run| && k in run[i].waiters && run[i].waiters[k].taken.Some?
    ensures var s, w := run[i], run[i].waiters[k];
            && w.answer.Some? && w.answer.value.id == w.id
            && if w.sent == 0 then
                 var u := w.taken.value;
                 && u in s.threads
                 && (s.threads[u] == TookCall(k, w.answer.value) || s.threads[u] == Deliver(k, w.answer.value))
               else w.ch == w.answer || w.got == w.answer
  {
    Reachable(run, i);
    assert WaiterOk(run[i], k) && HandedOn(run[i], k);
    if run[i].waiters[k].sent == 0 { assert PcOk(run[i], run[i].waiters[k].taken.value); }
  }

  /** The reader's look at the table: a response whose id is pending is taken for the waiter registered under it, and
      one whose id is not is dropped. */
  lemma TakeDecides(run: seq<Session>, i: nat, u: nat, r: Response)
    requires IsRun(run) && i + 1 < |run| && u in run[i].threads && run[i].threads[u] == Take(r)
    requires Moves(run[i], run[i + 1], u)
    ensures var s, s' := run[i], run[i + 1];
            if r.id in s.pending then
              var k := s.pending[r.id];
              && s'.pending == s.pending - {r.id} && k in s'.waiters
              && s'.waiters[k].taken == Some(u) && s'.waiters[k].answer == Some(r) && s'.waiters[k].id == r.id
            else s' == Goto(s, u, Reading)
  {
    Reachable(run, i);
    if r.id in run[i].pending { assert EntryOk(run[i], r.id); }
  }

  /** A delivery puts the response into the channel, and the caller that reads gets it. */
  lemma DeliverDecides(s: Session, s': Session, u: nat)
    requires Moves(s, s', u) && s.threads[u].Deliver?
    ensures var k := s.threads[u].waiter;
            k in s'.waiters && s'.waiters[k].ch == Some(s.threads[u].r) && s'.threads[u] == Reading
  {
  }

  /** A caller that stops waiting leaves its entry in the table, for the reader to take out; a heartbeat removes its
      own. */
  lemma GiveUpDecides(s: Session, s': Session, u: nat, k: nat, r: Response)
    requires Next(s, s', Run(u, false, k, r)) && u in s.threads
    requires s.threads[u].Waiting? && s.threads[u].waiter in s.waiters
    ensures s'.pending == s.pending && s'.waiters == s.waiters && s'.activeCalls == s.activeCalls
    ensures if s.waiters[s.threads[u].waiter].kind == Call then u !in s'.threads
            else u in s'.threads && s'.threads[u] == Unregister(s.threads[u].id)
  {
  }

  /** A caller whose response has come reads it; one whose request could not be sent takes its entry out. */
  lemma CallerDecides(s: Session, s': Session, u: nat, ok: bool, k: nat, r: Response)
    requires Next(s, s', Run(u, ok, k, r)) && u in s.threads
    ensures s.threads[u].Waiting? && ok ==>
              var w := s.threads[u].waiter;
              && w in s.waiters && s.waiters[w].ch.Some? && u !in s'.threads
              && s'.waiters == s.waiters[w := s.waiters[w].(ch := None, got := s.waiters[w].ch)]
    ensures s.threads[u].Sending? ==>
              u in s'.threads && s'.threads[u] == if ok then Waiting(s.threads[u].id, s.threads[u].waiter)
                                                  else Unregister(s.threads[u].id)
    ensures s.threads[u].CheckDone? ==>
              if s.close == Open then u in s'.threads && s'.threads[u] == Register(s.threads[u].id, s.threads[u].kind)
              else u !in s'.threads
  {
  }

  /** The reader never blocks on a waiter's channel, even after the waiter has gone. */
  lemma DeliveryNeverBlocks(run: seq<Session>, i: nat, u: nat)
    requires IsRun(run) && i < |run| && u in run[i].threads && run[i].threads[u].Deliver?
    ensures exists s' :: Next(run[i], s', Run(u, true, 0, Response(0, 0)))
  {
    Reachable(run, i);
    var s := run[i];
    assert PcOk(s, u);
    var k, r := s.threads[u].waiter, s.threads[u].r;
    assert WaiterOk(s, k);
    var s' := Goto(s, u, Reading).(waiters := s.waiters[k := s.waiters[k].(ch := Some(r),
        sent := s.waiters[k].sent + 1)]);
    assert Next(s, s', Run(u, true, 0, Response(0, 0)));
  }

  /** Registration never meets an id that is already pending. */
  lemma NoDuplicateId(run: seq<Session>, i: nat, u: nat)
    requires IsRun(run) && i < |run| && u in run[i].threads && run[i].threads[u].Register?
    ensures run[i].threads[u].id !in run[i].pending
  {
    Reachable(run, i);
    assert PcOk(run[i], u);
  }

  /** The worlds of a run in which the close stores zero while a caller is still to add one. */
  ghost function Drifting(k: nat): Session
    requires k < 8
  {
    if k == 0 then Session(map[], map[], 0, None, Open, map[], 0, None, 0)
    else if k == 1 then Goto(Drifting(0), 0, CheckDone(0, Call)).(nextId := 1)
    else if k == 2 then Goto(Drifting(1), 0, Register(0, Call))
    else if k == 3 then
      Goto(Drifting(2), 0, Count(0, 0)).(pending := map[0 := 0],
          waiters := map[0 := Waiter(0, Call, None, None, None, 0, None)])
    else if k == 4 then Goto(Drifting(3), 1, CloseEmpty).(close := DoneClosed, closer := Some(1))
    else if k == 5 then Goto(Drifting(4), 1, CloseStore).(pending := map[], mu := Some(1), close := Emptied)
    else if k == 6 then
      Quit(Drifting(5), 1).(activeCalls := 0, mu := None, close := Stored, drift := |Uncounted(Drifting(5))|)
    else Goto(Drifting(6), 0, Sending(0, 0)).(activeCalls := 1)
  }

  lemma DriftingStep(k: nat)
    requires k < 7
    ensures Linked(Drifting(k), Drifting(k + 1))
  {
    var step :=
      if k == 0 then Ask(0, 0, Call)
      else if k == 3 then StartClose(1)
      else Run(if k == 4 || k == 5 then 1 else 0, true, 0, Response(0, 0));
    assert Next(Drifting(k), Drifting(k + 1), step);
  }

  // ----- The regions under pendingMu

  /** What a region does to the table and the counter; DeviceSession executes these functions in place. */
  datatype Table = Table(entries: map<nat, Kind>, active: int)

  function Registered(t: Table, id: nat, kind: Kind): Table {
    t.(entries := t.entries[id := kind])
  }

  function Counted(t: Table): Table {
    t.(active := t.active + 1)
  }

  /** takePending and unregisterPending. */
  function Dropped(t: Table, id: nat): Table {
    if id !in t.entries then t
    else Table(t.entries - {id}, t.active - if t.entries[id] == Call then 1 else 0)
  }

  const EMPTY: Table := Table(map[], 0)

  ghost function Calls(t: Table): set<nat> {
    set id | id in t.entries && t.entries[id] == Call
  }

  /** How far the counter is ahead of the table: minus the callers yet to count themselves. */
  ghost function BalanceOf(t: Table): int {
    t.active - |Calls(t)|
  }

  lemma RegisteredBalance(t: Table, id: nat, kind: Kind)
    requires id !in t.entries
    ensures BalanceOf(Registered(t, id, kind)) == BalanceOf(t) - if kind == Call then 1 else 0
  {
    SizeChange(Calls(t), Calls(Registered(t, id, kind)), id);
  }

  lemma DroppedBalance(t: Table, id: nat)
    ensures BalanceOf(Dropped(t, id)) == BalanceOf(t)
  {
    if id in t.entries { SizeChange(Calls(t), Calls(Dropped(t, id)), id); }
  }

  lemma EmptyBalance()
    ensures BalanceOf(EMPTY) == 0
  {
    assert Calls(EMPTY) == {};
  }

  function Entries(pending: map<nat, nat>, waiters: map<nat, Waiter>): map<nat, Kind> {
    map id | id in pending && pending[id] in waiters :: waiters[pending[id]].kind
  }

  function TableOf(s: Session): Table {
    Table(Entries(s.pending, s.waiters), s.activeCalls)
  }

  /** A step of a thread, with everything that waits for somebody else left out. */
  ghost predicate Moves(s: Session, s': Session, u: nat) {
    u in s.threads && exists ok, k: nat, r :: Next(s, s', Run(u, ok, k, r))
  }

  lemma RegisterRegion(s: Session, s': Session, u: nat)
    requires ShapeOk(s) && Moves(s, s', u) && s.threads[u].Register?
    ensures var pc := s.threads[u];
            TableOf(s') == if pc.id in s.pending then TableOf(s) else Registered(TableOf(s), pc.id, pc.kind)
  {
    forall id | id in s.pending ensures s.pending[id] in s.waiters { assert EntryOk(s, id); }
    var ok, k: nat, r :| Next(s, s', Run(u, ok, k, r));
    var pc := s.threads[u];
    if pc.id !in s.pending {
      EntryRegistered(s.pending, s.waiters, pc.id, k, s'.waiters[k]);
    }
  }

  lemma EntryRegistered(pending: map<nat, nat>, waiters: map<nat, Waiter>, id: nat, k: nat, w: Waiter)
    requires id !in pending && k !in waiters && forall x :: x in pending ==> pending[x] in waiters
    ensures Entries(pending[id := k], waiters[k := w]) == Entries(pending, waiters)[id := w.kind]
  {
  }

  lemma CountRegion(s: Session, s': Session, u: nat)
    requires Moves(s, s', u) && s.threads[u].Count?
    ensures TableOf(s') == Counted(TableOf(s))
  {
  }

  /** Deleting an entry takes a second step if it was a call; the owner of pendingMu makes both. */
  lemma TakeRegion(s: Session, s': Session, u: nat)
    requires ShapeOk(s) && Moves(s, s', u) && s.threads[u].Take? && u in s'.threads
    ensures !s'.threads[u].TookCall? ==> TableOf(s') == Dropped(TableOf(s), s.threads[u].r.id)
    ensures s'.threads[u].TookCall? ==>
              s'.mu == Some(u) && TableOf(s').(active := s'.activeCalls - 1) == Dropped(TableOf(s), s.threads[u].r.id)
  {
    forall id | id in s.pending ensures s.pending[id] in s.waiters { assert EntryOk(s, id); }
  }

  lemma UnregisterRegion(s: Session, s': Session, u: nat)
    requires ShapeOk(s) && Moves(s, s', u) && s.threads[u].Unregister?
    ensures u !in s'.threads ==> TableOf(s') == Dropped(TableOf(s), s.threads[u].id)
    ensures u in s'.threads ==>
              && s'.threads[u].UndoCount? && s'.mu == Some(u)
              && TableOf(s').(active := s'.activeCalls - 1) == Dropped(TableOf(s), s.threads[u].id)
  {
    forall id | id in s.pending ensures s.pending[id] in s.waiters { assert EntryOk(s, id); }
  }

  /** The second step. */
  lemma SettleRegion(s: Session, s': Session, u: nat)
    requires Moves(s, s', u) && (s.threads[u].TookCall? || s.threads[u].UndoCount?)
    ensures TableOf(s') == TableOf(s).(active := s.activeCalls - 1)
  {
  }

  lemma CloseRegion(s: Session, s': Session, s'': Session, u: nat)
    requires Moves(s, s', u) && s.threads[u].CloseEmpty? && Moves(s', s'', u)
    ensures TableOf(s'') == EMPTY
  {
  }

  /** After that run nothing is pending on the closed session, and the counter reads 1. */
  lemma CounterDriftsOnClose()
    ensures exists run: seq<Session> ::
            IsRun(run) && |run| == 8 && run[7].close == Stored && run[7].pending == map[] && run[7].activeCalls == 1
  {
    var run := seq(8, k requires 0 <= k < 8 => Drifting(k));
    forall i, j | 0 <= i && i + 1 == j < |run| ensures Linked(run[i], run[j]) {
      DriftingStep(i);
    }
    assert IsRun(run);
  }
}
