/** Round-robin repair of project mirrors (sigiledd/src/ecosystem.rs, repair_batch). A name stands for its place in
    the byte order of names. A considered project is one whose turn came, due or not, its mirror free or not. */
module Repair {
  const BATCH: nat := 16

  ghost predicate Sorted(ps: seq<int>) { forall i, j :: 0 <= i < j < |ps| ==> ps[i] < ps[j] }

  /** `partition_point` of the names up to and including the cursor. */
  function Point(ps: seq<int>, after: int): (k: nat)
    ensures k <= |ps|
  {
    if ps == [] || ps[|ps| - 1] <= after then |ps| else Point(ps[..|ps| - 1], after)
  }

  lemma {:induction false} PointSplits(ps: seq<int>, after: int)
    requires Sorted(ps)
    ensures forall i :: 0 <= i < |ps| ==> (ps[i] <= after <==> i < Point(ps, after))
  {
    if ps != [] && ps[|ps| - 1] > after { PointSplits(ps[..|ps| - 1], after); }
  }

  /** The registered name whose turn comes after the cursor. */
  function Next(ps: seq<int>, after: int): int
    requires ps != []
  {
    ps[Point(ps, after) % |ps|]
  }

  /** Walking from the cursor to `x` upwards, with a wrap at the end, passes `y`. */
  predicate Between(after: int, y: int, x: int) { if after < x then after < y <= x else after < y || y <= x }

  /** No registered name lies between the cursor and the next turn. */
  lemma NextSkipsNone(ps: seq<int>, after: int, y: int)
    requires Sorted(ps) && ps != [] && y in ps && Between(after, y, Next(ps, after))
    ensures y == Next(ps, after)
  {
    PointSplits(ps, after);
    var k := Point(ps, after);
    var i :| 0 <= i < |ps| && ps[i] == y;
    Cyclic(k, |ps|);
    var n := if k == |ps| then 0 else k;
    assert Next(ps, after) == ps[n];
  }

  /** The turn after the name at index `j` is the next index, cyclically. */
  lemma NextIndex(ps: seq<int>, j: nat)
    requires Sorted(ps) && j < |ps|
    ensures Next(ps, ps[j]) == ps[(j + 1) % |ps|]
  {
    PointSplits(ps, ps[j]);
    if j + 1 < |ps| { assert ps[j] < ps[j + 1]; }
    assert Point(ps, ps[j]) == j + 1;
    hide Sorted, Point;
  }

  /** Where the cursor stands when a turn comes. */
  function CursorAt(after: int, considered: seq<int>, i: nat): int
    requires i <= |considered|
  {
    if i == 0 then after else considered[i - 1]
  }

  ghost predicate Turns(ps: seq<int>, after: int, considered: seq<int>)
    requires ps != []
  {
    forall i :: 0 <= i < |considered| ==> considered[i] == Next(ps, CursorAt(after, considered, i))
  }

  lemma NoTurns(ps: seq<int>, after: int)
    requires ps != []
    ensures Turns(ps, after, [])
  {
  }

  lemma OneMoreTurn(ps: seq<int>, after: int, considered: seq<int>, name: int)
    requires ps != [] && Turns(ps, after, considered)
    requires name == Next(ps, if considered == [] then after else considered[|considered| - 1])
    ensures Turns(ps, after, considered + [name])
  {
    hide Turns;
    assert (considered + [name])[..|considered|] == considered;
    TurnsPrefix(ps, after, considered + [name]);
  }

  lemma TurnsPrefix(ps: seq<int>, after: int, considered: seq<int>)
    requires ps != [] && considered != []
    ensures var init := considered[..|considered| - 1];
            Turns(ps, after, considered) <==>
            Turns(ps, after, init) && considered[|init|] == Next(ps, CursorAt(after, init, |init|))
  {
    hide Next;
    var init := considered[..|considered| - 1];
    assert forall i :: 0 <= i <= |init| ==> CursorAt(after, init, i) == CursorAt(after, considered, i);
    assert forall i :: 0 <= i < |init| ==> init[i] == considered[i];
  }

  method RepairBatch(projects: seq<int>, after: int) returns (cursor: int, considered: seq<int>)
    requires Sorted(projects)
    ensures |considered| == if |projects| < BATCH then |projects| else BATCH
    ensures projects == [] ==> cursor == after
    ensures projects != [] ==> Turns(projects, after, considered) && cursor == considered[|considered| - 1]
    ensures 0 < |projects| <= BATCH ==> forall p :: p in projects ==> p in considered
  {
    hide Turns, Next, Sorted, Point;
    cursor, considered := after, [];
    var start, len := Point(projects, after), |projects|;
    if len > 0 { NoTurns(projects, after); }
    for i := 0 to if len < BATCH then len else BATCH
      invariant |considered| == i && start <= len
      invariant i == 0 ==> cursor == after
      invariant i > 0 ==> cursor == considered[i - 1]
      invariant len > 0 ==> Turns(projects, after, considered)
      invariant forall k :: 0 <= k < i ==> considered[k] == projects[(start + k) % len]
    {
      var name := projects[(start + i) % len];
      TurnAt(projects, after, i);
      OneMoreTurn(projects, after, considered, name);
      cursor, considered := name, considered + [name];
    }
    if 0 < len <= BATCH { FullRound(projects, start, considered); }
  }

  lemma TurnAt(ps: seq<int>, after: int, i: nat)
    requires Sorted(ps) && i < |ps|
    ensures var start := Point(ps, after);
            ps[(start + i) % |ps|] == Next(ps, if i == 0 then after else ps[(start + i - 1) % |ps|])
  {
    hide Sorted, Point;
    var start, n := Point(ps, after), |ps|;
    if i > 0 {
      Cyclic(start + i - 1, n);
      Cyclic(start + i, n);
      var j := (start + i - 1) % n;
      NextIndex(ps, j);
      Cyclic(j + 1, n);
    }
  }

  lemma FullRound(ps: seq<int>, start: nat, considered: seq<int>)
    requires start <= |ps| == |considered|
    requires forall k :: 0 <= k < |ps| ==> considered[k] == ps[(start + k) % |ps|]
    ensures forall p :: p in ps ==> p in considered
  {
    forall p | p in ps ensures p in considered {
      var j :| 0 <= j < |ps| && ps[j] == p;
      var k := Turn(start, j, |ps|);
      assert considered[k] == p;
    }
  }

  /** A cyclic index one round ahead at most. */
  lemma Cyclic(k: nat, n: nat)
    requires k < 2 * n
    ensures k % n == if k < n then k else k - n
  {
    var q := k / n;
    assert k == n * q + k % n;
    assert q >= 2 ==> n * q == n * 2 + n * (q - 2);
    assert q < 2;
  }

  lemma Turn(start: nat, j: nat, n: nat) returns (k: nat)
    requires start <= n && j < n
    ensures k < n && (start + k) % n == j
  {
    k := if start <= j then j - start else if start == n then j else j + n - start;
    Cyclic(start + k, n);
  }

  /** The names the cursor still has to pass before it reaches `x`. */
  ghost function Ahead(all: set<int>, after: int, x: int): set<int> { set y | y in all && Between(after, y, x) }

  /** A turn either reaches `x` or leaves fewer names ahead of it. */
  lemma TurnProgress(all: set<int>, ps: seq<int>, after: int, x: int)
    requires Sorted(ps) && x in ps && forall p :: p in ps ==> p in all
    ensures Next(ps, after) == x || |Ahead(all, Next(ps, after), x)| < |Ahead(all, after, x)|
  {
    var n := Next(ps, after);
    PointSplits(ps, after);
    assert n in ps;
    if n != x {
      assert Between(after, x, x);
      assert !Between(after, x, n) by { if Between(after, x, n) { NextSkipsNone(ps, after, x); } }
      assert Between(after, n, x);
      assert Ahead(all, n, x) <= Ahead(all, after, x) - {n};
      Smaller(Ahead(all, n, x), Ahead(all, after, x), n);
    }
  }

  lemma Smaller(a: set<int>, b: set<int>, x: int)
    requires a <= b - {x} && x in b
    ensures |a| < |b|
  {
    Subset(a, b - {x});
  }

  lemma {:induction false} Subset<T>(a: set<T>, b: set<T>)
    requires a <= b
    ensures |a| <= |b|
  {
    if a != {} {
      var x :| x in a;
      Subset(a - {x}, b - {x});
    }
  }

  /** Turns add up. */
  lemma {:induction false} TurnsProgress(all: set<int>, ps: seq<int>, after: int, considered: seq<int>, x: int)
    requires Sorted(ps) && x in ps && (forall p :: p in ps ==> p in all) && Turns(ps, after, considered)
             && considered != []
    ensures x in considered
            || |Ahead(all, considered[|considered| - 1], x)| + |considered| <= |Ahead(all, after, x)|
  {
    hide Turns, Ahead, Next, Sorted;
    var init, last := considered[..|considered| - 1], considered[|considered| - 1];
    var before := if init == [] then after else init[|init| - 1];
    TurnsPrefix(ps, after, considered);
    if init != [] {
      TurnsProgress(all, ps, after, init, x);
    }
    TurnProgress(all, ps, before, x);
    assert last == Next(ps, before);
  }

  /** No project starves: while projects are only ever added, a registered one is considered within as many batches
      as it takes to go once round all names registered by the end. With a fixed set of n projects that is n/16
      rounded up. */
  method Batches(rounds: seq<seq<int>>, after: int, all: set<int>, x: int) returns (cursor: int, considered: seq<int>)
    requires forall b :: 0 <= b < |rounds| ==> Sorted(rounds[b]) && x in rounds[b] && forall p :: p in rounds[b] ==>
               p in all
    ensures |rounds| > 0 && BATCH * |rounds| >= |all| ==> x in considered
  {
    cursor, considered := after, [];
    Subset(Ahead(all, after, x), all);
    for b := 0 to |rounds|
      invariant x in considered || |Ahead(all, cursor, x)| + BATCH * b <= |all|
    {
      var more: seq<int>;
      ghost var before := cursor;
      cursor, more := RepairBatch(rounds[b], cursor);
      TurnsProgress(all, rounds[b], before, more, x);
      considered := considered + more;
    }
    if |rounds| > 0 && x !in considered {
      assert x in rounds[0] && x in Ahead(all, cursor, x);
    }
  }
}
