/** A small language of lock programs, its interleaving semantics for any number of threads, and a static
    order discipline that rules out deadlock. Locks are taken in scopes (Go's Lock ... Unlock, or a
    sync.Once body); a shared lock is treated as exclusive, which only adds waiting. */
module LockOrder {
  import opened Common

  datatype Lock =
    | SessionOnce(s: nat)     // Session.closed
    | TransportOnce(s: nat)   // httpTransport.closed
    | HandlerMu               // httpHandler.mu
    | PendingMu(s: nat)       // Session.pendingMu
    | RelayMu(id: nat)        // Transfer.relayMu
    | TransferMu              // Manager.transferMu
    | ReadyOnce(id: nat)      // Transfer.readyOnce
    | SendMu(s: nat)          // Session.sendMu
    | ChunkMu(s: nat)         // httpTransport.chunkMu
    | DeviceMu                // Manager.mu

  function LockRank(l: Lock): (r: nat)
    ensures r < 10
  {
    match l
    case SessionOnce(_) => 0
    case TransportOnce(_) => 1
    case HandlerMu => 2
    case PendingMu(_) => 3
    case RelayMu(_) => 4
    case TransferMu => 5
    case ReadyOnce(_) => 6
    case SendMu(_) => 7
    case ChunkMu(_) => 8
    case DeviceMu => 9
  }

  /** Locks that may be held while a thread waits for a peer, a channel or a connection. */
  predicate MayStall(l: Lock) {
    l.SessionOnce? || l.TransportOnce? || l.RelayMu? || l.SendMu?
  }

  datatype Prog =
    | Skip
    | Block                                  // a transport operation or a wait on a channel
    | With(lock: Lock, body: Prog)
    | Seq(first: Prog, second: Prog)
    | Choice(left: Prog, right: Prog)

  /** `l` may be taken by a thread that holds `held`. */
  predicate CanTake(held: seq<Lock>, l: Lock) {
    forall i :: 0 <= i < |held| ==> LockRank(held[i]) < LockRank(l) && (MayStall(l) ==> MayStall(held[i]))
  }

  /** The static discipline: locks are taken in rank order, and nothing stalls under a lock that must not. */
  predicate Ordered(p: Prog, held: seq<Lock>)
    decreases p
  {
    match p
    case Skip => true
    case Block => forall i :: 0 <= i < |held| ==> MayStall(held[i])
    case With(l, body) => CanTake(held, l) && Ordered(body, held + [l])
    case Seq(a, b) => Ordered(a, held) && Ordered(b, held)
    case Choice(a, b) => Ordered(a, held) && Ordered(b, held)
  }

  // ----- Semantics

  datatype Item = Do(prog: Prog) | Unlock(lock: Lock)
  datatype Thread = Thread(held: seq<Lock>, todo: seq<Item>)
  type Threads = map<nat, Thread>

  ghost predicate Held(w: Threads, l: Lock) {
    exists u :: u in w && l in w[u].held
  }

  /** The lock a thread is about to take. */
  function Wants(th: Thread): Option<Lock> {
    if th.todo != [] && th.todo[0].Do? && th.todo[0].prog.With? then Some(th.todo[0].prog.lock) else None
  }

  ghost predicate Waits(w: Threads, u: nat) {
    u in w && Wants(w[u]).Some? && Held(w, Wants(w[u]).value)
  }

  ghost predicate Enabled(w: Threads, u: nat) {
    u in w && w[u].todo != [] && !Waits(w, u)
  }

  /** What executing the first item leaves to do; `left` resolves choices. */
  function Expand(th: Thread, left: bool): Thread
    requires th.todo != [] && (th.todo[0].Unlock? ==> th.held != [])
  {
    var rest := th.todo[1..];
    match th.todo[0]
    case Unlock(_) => Thread(th.held[..|th.held| - 1], rest)
    case Do(p) =>
      match p
      case Skip => Thread(th.held, rest)
      case Block => Thread(th.held, rest)
      case With(l, body) => Thread(th.held + [l], [Do(body), Unlock(l)] + rest)
      case Seq(a, b) => Thread(th.held, [Do(a), Do(b)] + rest)
      case Choice(a, b) => Thread(th.held, [Do(if left then a else b)] + rest)
  }

  datatype Step = Spawn(u: nat, prog: Prog) | Go(u: nat, left: bool)

  ghost predicate Next(w: Threads, w': Threads, s: Step) {
    match s
    case Spawn(u, prog) => u !in w && Ordered(prog, []) && w' == w[u := Thread([], [Do(prog)])]
    case Go(u, left) =>
      && Enabled(w, u) && (w[u].todo[0].Unlock? ==> w[u].held != [])
      && w' == w[u := Expand(w[u], left)]
  }

  ghost predicate Linked(w: Threads, w': Threads) {
    exists s :: Next(w, w', s)
  }

  ghost predicate IsRun(run: seq<Threads>) {
    && run != [] && run[0] == map[]
    && forall i, j {:trigger Linked(run[i], run[j])} :: 0 <= i && i + 1 == j < |run| ==> Linked(run[i], run[j])
  }

  // ----- Typing of running threads

  /** The rest of the program fits the locks held and gives every one of them back. */
  predicate TodoOk(todo: seq<Item>, held: seq<Lock>)
    decreases |todo|
  {
    if todo == [] then held == []
    else
      match todo[0]
      case Unlock(l) => held != [] && held[|held| - 1] == l && TodoOk(todo[1..], held[..|held| - 1])
      case Do(p) => Ordered(p, held) && TodoOk(todo[1..], held)
  }

  /** Locks are held in the order they were taken. */
  predicate StackOk(held: seq<Lock>) {
    forall i, j :: 0 <= i < j < |held| ==>
      LockRank(held[i]) < LockRank(held[j]) && (MayStall(held[j]) ==> MayStall(held[i]))
  }

  ghost predicate Inv(w: Threads) {
    && (forall u :: u in w ==> TodoOk(w[u].todo, w[u].held) && StackOk(w[u].held))
    && (forall u, v, l :: u in w && v in w && l in w[u].held && l in w[v].held ==> u == v)
  }

  lemma ExpandOk(th: Thread, left: bool)
    requires th.todo != [] && TodoOk(th.todo, th.held) && StackOk(th.held)
    ensures th.todo[0].Unlock? ==> th.held != []
    ensures var t := Expand(th, left); TodoOk(t.todo, t.held) && StackOk(t.held)
  {
  }

  lemma ExpandHeld(th: Thread, left: bool, l: Lock)
    requires th.todo != [] && (th.todo[0].Unlock? ==> th.held != []) && l in Expand(th, left).held
    ensures l in th.held || Wants(th) == Some(l)
  {
  }

  lemma GoInv(w: Threads, w': Threads, u: nat, left: bool)
    requires Inv(w) && Next(w, w', Go(u, left))
    ensures Inv(w')
  {
    ExpandOk(w[u], left);
    forall l | l in w'[u].held ensures l in w[u].held || Wants(w[u]) == Some(l) { ExpandHeld(w[u], left, l); }
    assert Wants(w[u]).Some? ==> !Held(w, Wants(w[u]).value);
  }

  lemma SpawnInv(w: Threads, w': Threads, u: nat, prog: Prog)
    requires Inv(w) && Next(w, w', Spawn(u, prog))
    ensures Inv(w')
  {
    var todo := [Do(prog)];
    assert todo[1..] == [];
    assert TodoOk(todo, []);
    assert w'[u] == Thread([], todo);
  }

  lemma LinkedInv(w: Threads, w': Threads)
    requires Inv(w) && Linked(w, w')
    ensures Inv(w')
  {
    var s :| Next(w, w', s);
    match s
    case Spawn(u, prog) => SpawnInv(w, w', u, prog);
    case Go(u, left) => GoInv(w, w', u, left);
  }

  lemma {:induction false} Reachable(run: seq<Threads>, i: nat)
    requires IsRun(run) && i < |run|
    ensures Inv(run[i])
  {
    if i > 0 {
      Reachable(run, i - 1);
      assert Linked(run[i - 1], run[i]);
      LinkedInv(run[i - 1], run[i]);
    }
  }

  // ----- Consequences

  /** The owner of a lock; it still has something to do. */
  lemma Owner(w: Threads, l: Lock) returns (h: nat)
    requires Inv(w) && Held(w, l)
    ensures h in w && l in w[h].held && w[h].todo != []
  {
    h :| h in w && l in w[h].held;
  }

  /** What the owner of a lock wants ranks above it, and must not stall if the lock must not. */
  lemma WantsAbove(th: Thread, l: Lock)
    requires TodoOk(th.todo, th.held) && l in th.held && Wants(th).Some?
    ensures LockRank(l) < LockRank(Wants(th).value)
    ensures !MayStall(l) ==> !MayStall(Wants(th).value)
  {
  }

  /** Thread `v` is `n` waits down the line from thread `u`: `u` waits for a lock of a thread that waits for a lock
      of a thread ... that is `v`. */
  ghost predicate BehindIn(w: Threads, u: nat, v: nat, n: nat)
    decreases n
  {
    if n == 0 then u == v
    else Waits(w, u) && exists h :: h in w && Wants(w[u]).value in w[h].held && BehindIn(w, h, v, n - 1)
  }

  /** Following the waits from a waiting thread leads, after some number of them, to a thread that can move. */
  lemma Root(w: Threads, u: nat) returns (v: nat, n: nat)
    requires Inv(w) && Waits(w, u)
    ensures n > 0 && BehindIn(w, u, v, n) && Enabled(w, v)
    decreases 10 - LockRank(Wants(w[u]).value)
  {
    var l := Wants(w[u]).value;
    var h := Owner(w, l);
    if Waits(w, h) {
      WantsAbove(w[h], l);
      var m: nat;
      v, m := Root(w, h);
      n := m + 1;
    } else {
      assert BehindIn(w, h, h, 0);
      v, n := h, 1;
    }
  }

  /** A thread that owns a lock under which nothing may stall, and is not waiting outside. */
  ghost predicate Brisk(th: Thread) {
    th.todo != [] && th.todo[0] != Do(Block) && exists l :: l in th.held && !MayStall(l)
  }

  /** Nothing stalls under a lock that must not. */
  lemma OwnersAreBrisk(run: seq<Threads>, i: nat, u: nat, l: Lock)
    requires IsRun(run) && i < |run| && u in run[i] && l in run[i][u].held && !MayStall(l)
    ensures Brisk(run[i][u])
  {
    Reachable(run, i);
  }

  lemma {:induction false} LineIsBrisk(w: Threads, u: nat, v: nat, n: nat)
    requires Inv(w) && Waits(w, u) && !MayStall(Wants(w[u]).value) && n > 0 && BehindIn(w, u, v, n)
    ensures v in w && Brisk(w[v])
    decreases n
  {
    var l := Wants(w[u]).value;
    var h :| h in w && l in w[h].held && BehindIn(w, h, v, n - 1);
    if n > 1 {
      WantsAbove(w[h], l);
      LineIsBrisk(w, h, v, n - 1);
    }
  }

  /** No lock is ever held by two threads. */
  lemma MutualExclusion(run: seq<Threads>, i: nat, u: nat, v: nat, l: Lock)
    requires IsRun(run) && i < |run| && u in run[i] && v in run[i] && l in run[i][u].held && l in run[i][v].held
    ensures u == v
  {
    Reachable(run, i);
  }

  /** In every reachable state an unfinished thread can move, or waits in a line that ends at one that can. */
  lemma NoDeadlock(run: seq<Threads>, i: nat, u: nat)
    requires IsRun(run) && i < |run| && u in run[i] && run[i][u].todo != []
    ensures exists v, n: nat, w' :: BehindIn(run[i], u, v, n) && Next(run[i], w', Go(v, true))
  {
    Reachable(run, i);
    var w := run[i];
    var v: nat, n: nat := u, 0;
    assert BehindIn(w, u, u, 0);
    if Waits(w, u) { v, n := Root(w, u); }
    ExpandOk(w[v], true);
    assert Next(w, w[v := Expand(w[v], true)], Go(v, true));
  }

  /** No cycle of threads, each waiting for a lock the next one holds. */
  lemma NoWaitCycle(run: seq<Threads>, i: nat, cycle: seq<nat>)
    requires IsRun(run) && i < |run| && cycle != []
    requires forall k :: 0 <= k < |cycle| ==> cycle[k] in run[i] && Wants(run[i][cycle[k]]).Some?
    requires forall k :: 0 <= k < |cycle| - 1 ==> Wants(run[i][cycle[k]]).value in run[i][cycle[k + 1]].held
    ensures Wants(run[i][cycle[|cycle| - 1]]).value !in run[i][cycle[0]].held
  {
    Reachable(run, i);
    RanksRise(run[i], cycle);
    if Wants(run[i][cycle[|cycle| - 1]]).value in run[i][cycle[0]].held {
      WantsAbove(run[i][cycle[0]], Wants(run[i][cycle[|cycle| - 1]]).value);
    }
  }

  lemma {:induction false} RanksRise(w: Threads, chain: seq<nat>)
    requires Inv(w) && chain != []
    requires forall k :: 0 <= k < |chain| ==> chain[k] in w && Wants(w[chain[k]]).Some?
    requires forall k :: 0 <= k < |chain| - 1 ==> Wants(w[chain[k]]).value in w[chain[k + 1]].held
    ensures LockRank(Wants(w[chain[0]]).value) <= LockRank(Wants(w[chain[|chain| - 1]]).value)
  {
    var n := |chain| - 1;
    if n > 0 {
      var front := chain[..n];
      assert forall k :: 0 <= k < |front| ==> front[k] == chain[k];
      RanksRise(w, front);
      var held := Wants(w[chain[n - 1]]).value;
      assert held in w[chain[n - 1 + 1]].held;
      WantsAbove(w[chain[n]], held);
    }
  }

  /** A thread waiting for transferMu, or any other lock that must not stall, is never behind a stalled peer: every
      thread down the line of its waits owns such a lock and is not waiting outside, and the line ends at one
      that can move. */
  lemma LeafLocksNeverStall(run: seq<Threads>, i: nat, u: nat)
    requires IsRun(run) && i < |run| && Waits(run[i], u) && !MayStall(Wants(run[i][u]).value)
    ensures forall v, n: nat :: n > 0 && BehindIn(run[i], u, v, n) ==> v in run[i] && Brisk(run[i][v])
    ensures exists v, n: nat :: n > 0 && BehindIn(run[i], u, v, n) && Enabled(run[i], v)
  {
    Reachable(run, i);
    forall v, n: nat | n > 0 && BehindIn(run[i], u, v, n) ensures v in run[i] && Brisk(run[i][v]) {
      LineIsBrisk(run[i], u, v, n);
    }
    var v, n := Root(run[i], u);
  }
}
