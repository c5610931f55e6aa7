/** What the programs of LockOrder do: the traces of a program, and that a finished thread, among any others, has
    done one of them from its beginning to its end. */
module LockTraces {
  import opened Common
  import opened LockOrder

  datatype Act = Take(lock: Lock) | Give(lock: Lock) | Stall

  /** A complete execution of the program alone. */
  ghost predicate IsTrace(p: Prog, t: seq<Act>)
    decreases p
  {
    match p
    case Skip => t == []
    case Block => t == [Stall]
    case With(l, body) => exists b: seq<Act> :: IsTrace(body, b) && t == [Take(l)] + b + [Give(l)]
    case Seq(first, second) => exists a: seq<Act>, b: seq<Act> :: IsTrace(first, a) && IsTrace(second, b) && t == a + b
    case Choice(left, right) => IsTrace(left, t) || IsTrace(right, t)
  }

  ghost predicate IsItemTrace(item: Item, t: seq<Act>) {
    match item
    case Do(p) => IsTrace(p, t)
    case Unlock(l) => t == [Give(l)]
  }

  ghost predicate IsTodoTrace(todo: seq<Item>, t: seq<Act>) {
    if todo == [] then t == []
    else exists a: seq<Act>, b: seq<Act> :: IsItemTrace(todo[0], a) && IsTodoTrace(todo[1..], b) && t == a + b
  }

  /** What executing the first item does at once. */
  function ActsOf(item: Item): seq<Act> {
    match item
    case Unlock(l) => [Give(l)]
    case Do(Block) => [Stall]
    case Do(With(l, _)) => [Take(l)]
    case Do(_) => []
  }

  /** What a thread did between two consecutive states. */
  function Did(th: Thread, th': Thread): seq<Act> {
    if th' == th || th.todo == [] then [] else ActsOf(th.todo[0])
  }

  /** What thread `u` did from state `i` to state `j`. */
  function DoneBetween(run: seq<Threads>, i: nat, j: nat, u: nat): seq<Act>
    requires i <= j < |run|
    decreases j - i
  {
    if i == j then []
    else if u in run[i] && u in run[i + 1] then Did(run[i][u], run[i + 1][u]) + DoneBetween(run, i + 1, j, u)
    else DoneBetween(run, i + 1, j, u)
  }

  lemma TodoTrace(item: Item, rest: seq<Item>, a: seq<Act>, b: seq<Act>)
    requires IsItemTrace(item, a) && IsTodoTrace(rest, b)
    ensures IsTodoTrace([item] + rest, a + b)
  {
    assert ([item] + rest)[1..] == rest;
  }

  lemma SplitTrace(item: Item, rest: seq<Item>, t: seq<Act>) returns (a: seq<Act>, b: seq<Act>)
    requires IsTodoTrace([item] + rest, t)
    ensures IsItemTrace(item, a) && IsTodoTrace(rest, b) && t == a + b
  {
    assert ([item] + rest)[1..] == rest;
    a, b :| IsItemTrace(item, a) && IsTodoTrace(rest, b) && t == a + b;
  }

  /** Executing an item and then a trace of what it leaves is a trace of what there was. */
  lemma ExpandTrace(th: Thread, left: bool, t: seq<Act>)
    requires th.todo != [] && (th.todo[0].Unlock? ==> th.held != []) && IsTodoTrace(Expand(th, left).todo, t)
    ensures IsTodoTrace(th.todo, ActsOf(th.todo[0]) + t)
  {
    var item, rest := th.todo[0], th.todo[1..];
    assert th.todo == [item] + rest;
    match item
    case Unlock(l) => TodoTrace(item, rest, [Give(l)], t);
    case Do(p) =>
      match p
      case Skip => TodoTrace(item, rest, [], t);
      case Block => TodoTrace(item, rest, [Stall], t);
      case With(l, body) => WithTrace(l, body, rest, t);
      case Seq(a, b) => SeqTrace(a, b, rest, t);
      case Choice(a, b) =>
        var x, y := SplitTrace(Do(if left then a else b), rest, t);
        TodoTrace(item, rest, x, y);
  }

  lemma WithIsTrace(l: Lock, body: Prog, b: seq<Act>)
    requires IsTrace(body, b)
    ensures IsItemTrace(Do(With(l, body)), [Take(l)] + b + [Give(l)])
  {
  }

  lemma SeqIsTrace(first: Prog, second: Prog, a: seq<Act>, b: seq<Act>)
    requires IsTrace(first, a) && IsTrace(second, b)
    ensures IsItemTrace(Do(Seq(first, second)), a + b)
  {
  }

  lemma SplitTwo(x: Item, y: Item, rest: seq<Item>, t: seq<Act>) returns (a: seq<Act>, b: seq<Act>, c: seq<Act>)
    requires IsTodoTrace([x, y] + rest, t)
    ensures IsItemTrace(x, a) && IsItemTrace(y, b) && IsTodoTrace(rest, c) && t == a + b + c
  {
    TwoFirst(x, y, rest);
    var more: seq<Act>;
    a, more := SplitTrace(x, [y] + rest, t);
    b, c := SplitTrace(y, rest, more);
    Regroup(a, b, c);
  }

  lemma TwoFirst(x: Item, y: Item, rest: seq<Item>)
    ensures [x, y] + rest == [x] + ([y] + rest)
  {
  }

  lemma Regroup(a: seq<Act>, b: seq<Act>, c: seq<Act>)
    ensures a + (b + c) == a + b + c
  {
  }

  lemma WithTrace(l: Lock, body: Prog, rest: seq<Item>, t: seq<Act>)
    requires IsTodoTrace([Do(body), Unlock(l)] + rest, t)
    ensures IsTodoTrace([Do(With(l, body))] + rest, [Take(l)] + t)
  {
    var b, give, last := SplitTwo(Do(body), Unlock(l), rest, t);
    WithIsTrace(l, body, b);
    TodoTrace(Do(With(l, body)), rest, [Take(l)] + b + [Give(l)], last);
    Regroup([Take(l)], b + give, last);
    Regroup([Take(l)], b, give);
  }

  lemma SeqTrace(first: Prog, second: Prog, rest: seq<Item>, t: seq<Act>)
    requires IsTodoTrace([Do(first), Do(second)] + rest, t)
    ensures IsTodoTrace([Do(Seq(first, second))] + rest, [] + t)
  {
    var a, b, last := SplitTwo(Do(first), Do(second), rest, t);
    SeqIsTrace(first, second, a, b);
    TodoTrace(Do(Seq(first, second)), rest, a + b, last);
    assert [] + t == t;
  }

  lemma OneStep(w: Threads, w': Threads, u: nat, t: seq<Act>)
    requires Linked(w, w') && u in w && u in w' && IsTodoTrace(w'[u].todo, t)
    ensures IsTodoTrace(w[u].todo, Did(w[u], w'[u]) + t)
  {
    var s :| Next(w, w', s);
    if s.Go? && s.u == u && w'[u] != w[u] {
      ExpandTrace(w[u], s.left, t);
    } else {
      assert Did(w[u], w'[u]) + t == t;
    }
  }

  lemma {:induction false} RestIsTrace(run: seq<Threads>, i: nat, j: nat, u: nat)
    requires IsRun(run) && i <= j < |run| && (forall k :: i <= k <= j ==> u in run[k]) && run[j][u].todo == []
    ensures IsTodoTrace(run[i][u].todo, DoneBetween(run, i, j, u))
    decreases j - i
  {
    if i < j {
      RestIsTrace(run, i + 1, j, u);
      assert Linked(run[i], run[i + 1]);
      OneStep(run[i], run[i + 1], u, DoneBetween(run, i + 1, j, u));
    }
  }

  /** Among any other threads, a thread that is done has executed its program whole: it took, gave back and stalled
      as one of the program's own traces says, and it holds nothing. */
  lemma ProgramsRunWhole(run: seq<Threads>, i: nat, j: nat, u: nat, p: Prog)
    requires IsRun(run) && i + 1 <= j < |run| && Next(run[i], run[i + 1], Spawn(u, p))
    requires (forall k :: i < k <= j ==> u in run[k]) && run[j][u].todo == []
    ensures IsTrace(p, DoneBetween(run, i + 1, j, u)) && run[j][u].held == []
  {
    RestIsTrace(run, i + 1, j, u);
    var t := DoneBetween(run, i + 1, j, u);
    assert [Do(p)] + [] == [Do(p)];
    var a, b := SplitTrace(Do(p), [], t);
    assert a + b == a;
    Reachable(run, j);
  }
}
