/*
  The blocks world: every block rests on the table or on one other block,
  `on` maps each block to its support and `clear` holds the blocks with
  nothing on them. Stack and Unstack move one clear block; the goal flag
  latches once the current supports all match the goal's.
*/
module Blocks {
  import opened Terms
  import Draws

  /** The support name standing for the table. */
  const TableName: string := "Table"

  /** Number of blocks of every world. */
  const NumberOfBlocks: nat := 4

  /** The largest index whose name is still a single Unicode scalar after 'A'. */
  const MaxBlockIndex: nat := 0xD7FF - 65

  /** The name of block i: the single character 'A' + i. */
  function BlockName(i: nat): (name: string)
    requires i <= MaxBlockIndex
    ensures |name| == 1 && name[0] as int == 65 + i
    ensures name != TableName
  {
    [(65 + i) as char]
  }

  lemma BlockNameInjective(i: nat, j: nat)
    requires i <= MaxBlockIndex && j <= MaxBlockIndex
    ensures BlockName(i) == BlockName(j) <==> i == j
  {
    if BlockName(i) == BlockName(j) {
      assert BlockName(i)[0] == BlockName(j)[0];
    }
  }

  predicate Distinct<T(==)>(s: seq<T>)
  {
    forall a, b :: 0 <= a < b < |s| ==> s[a] != s[b]
  }

  /** The names of blocks 0 .. n-1, in index order. */
  function Names(n: nat): (names: seq<string>)
    requires n <= MaxBlockIndex + 1
    ensures |names| == n
    ensures forall i :: 0 <= i < n ==> names[i] == BlockName(i)
    ensures Distinct(names)
    ensures TableName !in names
  {
    var names := seq(n, i requires 0 <= i < n => BlockName(i));
    forall a, b | 0 <= a < b < n ensures names[a] != names[b] {
      BlockNameInjective(a, b);
    }
    names
  }

  /** The blocks some block rests on. */
  function Supports(on: map<string, string>): set<string>
  {
    set b | b in on && on[b] != TableName :: on[b]
  }

  /** The placed blocks nothing rests on. */
  function ClearOf(on: map<string, string>): set<string>
  {
    on.Keys - Supports(on)
  }

  /** At most one block rests on any block. */
  predicate SingleSupport(on: map<string, string>)
  {
    forall x, y :: x in on && y in on && x != y && on[x] == on[y] ==> on[x] == TableName
  }

  /**
    A well-formed state: supports are the table or placed blocks, no block
    carries two, `clear` is exactly the uncovered blocks, and a height map
    that strictly grows up every tower witnesses that supports never cycle.
  */
  ghost predicate Tower(on: map<string, string>, clear: set<string>, height: map<string, nat>)
  {
    TableName !in on
    && (forall b {:trigger on[b]} :: b in on ==> on[b] == TableName || on[b] in on)
    && SingleSupport(on)
    && height.Keys == on.Keys
    && (forall b {:trigger on[b]} :: b in on && on[b] != TableName ==> height[b] > height[on[b]])
    && clear == ClearOf(on)
  }

  /** A well-formed state placing exactly the listed, distinct blocks. */
  ghost predicate WellFormed(names: seq<string>, on: map<string, string>, clear: set<string>, height: map<string, nat>)
  {
    Distinct(names) && TableName !in names
    && (forall b :: b in on <==> b in names)
    && Tower(on, clear, height)
  }

  /** The supports of the blocks among keys. */
  function SupportsOf(on: map<string, string>, keys: set<string>): set<string>
  {
    set b | b in keys && b in on && on[b] != TableName :: on[b]
  }

  lemma SupportsOfStep(on: map<string, string>, seen: set<string>, key: string)
    requires key in on
    ensures SupportsOf(on, seen + {key}) == SupportsOf(on, seen) + (if on[key] != TableName then {on[key]} else {})
  {
    if on[key] != TableName {
      assert on[key] in SupportsOf(on, seen + {key});
    }
  }

  /** A placed block that nothing rests on is the support of no block. */
  lemma ClearNotSupport(on: map<string, string>, b: string)
    requires b in ClearOf(on) && b != TableName
    ensures forall y :: y in on ==> on[y] != b
  {
    forall y | y in on ensures on[y] != b {
      if on[y] != TableName {
        assert on[y] in Supports(on);
      }
    }
  }

  /** Re-pointing one block changes the supports by at most its old and new support. */
  lemma SupportsAfter(on: map<string, string>, x: string, s: string)
    requires x in on ==> on[x] == TableName || on[x] !in Supports(on - {x})
    ensures Supports(on[x := s]) ==
      Supports(on - {x}) + (if s != TableName then {s} else {})
  {
    var on' := on[x := s];
    forall y | y in Supports(on') ensures y in Supports(on - {x}) + (if s != TableName then {s} else {}) {
      var b :| b in on' && on'[b] != TableName && on'[b] == y;
      if b != x {
        assert b in on - {x};
      }
    }
    forall y | y in Supports(on - {x}) ensures y in Supports(on') {
      var b :| b in on - {x} && on[b] != TableName && on[b] == y;
      assert b in on' && on'[b] == y;
    }
    if s != TableName {
      assert on'[x] == s;
    }
  }

  /** Stacking a clear block on another clear block keeps the state well formed. */
  lemma StackKeepsTower(on: map<string, string>, clear: set<string>, height: map<string, nat>, top: string, bottom: string)
    requires Tower(on, clear, height)
    requires top in on && bottom in on && top != bottom
    requires top in clear && bottom in clear
    ensures Tower(on[top := bottom], ClearOf(on[top := bottom]), height[top := height[bottom] + 1])
  {
    ClearNotSupport(on, top);
    ClearNotSupport(on, bottom);
  }

  /** Moving a clear block to the table keeps the state well formed. */
  lemma UnstackKeepsTower(on: map<string, string>, clear: set<string>, height: map<string, nat>, b: string)
    requires Tower(on, clear, height)
    requires b in on && b in clear
    ensures Tower(on[b := TableName], ClearOf(on[b := TableName]), height[b := 0])
  {
    ClearNotSupport(on, b);
  }

  /** A legal move, a clear block onto the table or onto another clear block, keeps the state well formed. */
  lemma MoveKeepsWorld(names: seq<string>, on: map<string, string>, clear: set<string>, height: map<string, nat>,
                       b: string, support: string)
    requires WellFormed(names, on, clear, height)
    requires b in names && b in clear
    requires support == TableName || (support in names && support in clear && support != b)
    ensures WellFormed(names, on[b := support], ClearOf(on[b := support]), Raised(height, b, support))
  {
    if support == TableName {
      assert Raised(height, b, support) == height[b := 0];
      UnstackKeepsTower(on, clear, height, b);
    } else {
      assert Raised(height, b, support) == height[b := height[support] + 1];
      StackKeepsTower(on, clear, height, b, support);
    }
  }

  /** When the listed blocks are exactly the placed ones, the listed uncovered blocks are the clear ones. */
  lemma UncoveredClear(names: seq<string>, on: map<string, string>)
    requires forall b :: b in on <==> b in names
    ensures (set b | b in names) - Supports(on) == ClearOf(on)
  {
    assert (set b | b in names) == on.Keys;
  }

  /** The list without the first occurrence of x, as List.Remove leaves it. */
  function RemoveFirst<T(==)>(s: seq<T>, x: T): (r: seq<T>)
    ensures |r| <= |s|
  {
    if s == [] then []
    else if s[0] == x then s[1..]
    else [s[0]] + RemoveFirst(s[1..], x)
  }

  lemma DistinctTail<T>(s: seq<T>)
    requires Distinct(s) && s != []
    ensures Distinct(s[1..]) && s[0] !in s[1..]
  {
    forall a, b | 0 <= a < b < |s[1..]| ensures s[1..][a] != s[1..][b] {
      assert s[1..][a] == s[a + 1] && s[1..][b] == s[b + 1];
    }
    forall k | 0 <= k < |s[1..]| ensures s[1..][k] != s[0] {
      assert s[1..][k] == s[k + 1];
    }
  }

  lemma DistinctCons<T>(x: T, s: seq<T>)
    requires Distinct(s) && x !in s
    ensures Distinct([x] + s)
  {
    forall a, b | 0 <= a < b < |[x] + s| ensures ([x] + s)[a] != ([x] + s)[b] {
      assert ([x] + s)[b] == s[b - 1];
      if a > 0 {
        assert ([x] + s)[a] == s[a - 1];
      }
    }
  }

  lemma DistinctSnoc<T>(s: seq<T>, x: T)
    requires Distinct(s) && x !in s
    ensures Distinct(s + [x])
  {
    forall a, b | 0 <= a < b < |s + [x]| ensures (s + [x])[a] != (s + [x])[b] {
      assert (s + [x])[a] == s[a];
      if b < |s| {
        assert (s + [x])[b] == s[b];
      }
    }
  }

  lemma {:induction false} RemoveFirstMembers<T>(s: seq<T>, x: T)
    requires Distinct(s)
    ensures Distinct(RemoveFirst(s, x))
    ensures forall y :: y in RemoveFirst(s, x) <==> y in s && y != x
  {
    if s != [] {
      DistinctTail(s);
      if s[0] != x {
        RemoveFirstMembers(s[1..], x);
        DistinctCons(s[0], RemoveFirst(s[1..], x));
      }
    }
  }

  /**
    The generation invariant: the placed part is well formed and the list of
    candidate supports holds, without repetition, the table and the clear
    blocks.
  */
  ghost predicate Placing(on: map<string, string>, clear: set<string>, height: map<string, nat>, supports: seq<string>)
  {
    Tower(on, clear, height)
    && Distinct(supports)
    && (forall x :: x in supports <==> x == TableName || x in clear)
  }

  /** The height of a block placed on support: the table's is 0, a block's one more than its support's. */
  function Raised(height: map<string, nat>, block: string, support: string): map<string, nat>
  {
    height[block := if support in height then height[support] + 1 else 0]
  }

  /** The clear blocks after placing block on support: support is covered, block is clear. */
  function Covered(clear: set<string>, block: string, support: string): set<string>
  {
    (if support != TableName then clear - {support} else clear) + {block}
  }

  /** The candidate supports after placing block on support: a covered block leaves the list, block joins it. */
  function Offered(supports: seq<string>, block: string, support: string): seq<string>
  {
    (if support != TableName then RemoveFirst(supports, support) else supports) + [block]
  }

  /**
    The generation loop from position k of the placing order on: block
    order[k] goes on the candidate support the k-th draw picks, for the
    supports, placements and clear blocks the earlier turns left.
  */
  function Generation(order: seq<string>, draws: seq<real>, k: nat,
                      on: map<string, string>, clear: set<string>, supports: seq<string>): (map<string, string>, set<string>)
    requires k <= |order| <= |draws| && |supports| > 0
    requires forall i :: 0 <= i < |draws| ==> Draws.IsUnit(draws[i])
    decreases |order| - k
  {
    if k == |order| then (on, clear)
    else
      var support := supports[Draws.IndexFromDraw(draws[k], |supports|)];
      Generation(order, draws, k + 1, on[order[k] := support], Covered(clear, order[k], support),
                 Offered(supports, order[k], support))
  }

  /** The part of the generation invariant about the placed blocks. */
  lemma PlaceTower(on: map<string, string>, clear: set<string>, height: map<string, nat>, block: string, support: string)
    requires Tower(on, clear, height)
    requires block !in on && block != TableName
    requires support == TableName || support in clear
    ensures Tower(on[block := support], Covered(clear, block, support), Raised(height, block, support))
  {
    var on', height' := on[block := support], Raised(height, block, support);
    if support != TableName {
      ClearNotSupport(on, support);
    }
    assert SingleSupport(on');
    assert forall b :: b in on' && on'[b] != TableName ==> height'[b] > height'[on'[b]] by {
      assert forall b :: b in on ==> on[b] != block;
    }
    assert Covered(clear, block, support) == ClearOf(on') by {
      assert on - {block} == on;
      SupportsAfter(on, block, support);
      assert block !in Supports(on);
    }
  }

  /** The part of the generation invariant about the candidate supports. */
  lemma PlaceSupports(clear: set<string>, supports: seq<string>, block: string, support: string)
    requires Distinct(supports) && (forall x :: x in supports <==> x == TableName || x in clear)
    requires block !in clear && block != TableName
    requires support in supports
    ensures Distinct(Offered(supports, block, support))
    ensures forall x :: x in Offered(supports, block, support) <==> x == TableName || x in Covered(clear, block, support)
  {
    var supports' := if support != TableName then RemoveFirst(supports, support) else supports;
    if support != TableName {
      RemoveFirstMembers(supports, support);
    }
    DistinctSnoc(supports', block);
  }

  /** One placement of the generation loop keeps its invariant. */
  lemma PlaceStep(on: map<string, string>, clear: set<string>, height: map<string, nat>, supports: seq<string>,
                  block: string, support: string)
    requires Placing(on, clear, height, supports)
    requires block !in on && block != TableName && support in supports
    ensures Placing(on[block := support], Covered(clear, block, support), Raised(height, block, support),
                    Offered(supports, block, support))
    ensures support == TableName || support in on
  {
    assert support == TableName || support in clear;
    PlaceTower(on, clear, height, block, support);
    PlaceSupports(clear, supports, block, support);
  }

  /** The first k blocks of a placing order each rest on the table or on a block placed before them. */
  predicate PlacedBefore(on: map<string, string>, order: seq<string>, k: nat)
  {
    k <= |order| && forall m :: 0 <= m < k ==> order[m] in on && (on[order[m]] == TableName || on[order[m]] in order[..m])
  }

  lemma PlacedBeforeStep(on: map<string, string>, order: seq<string>, k: nat, support: string)
    requires PlacedBefore(on, order, k) && k < |order| && order[k] !in on
    requires support == TableName || support in order[..k]
    ensures PlacedBefore(on[order[k] := support], order, k + 1)
  {
  }

  /** One turn of the generation loop keeps all its invariants. */
  lemma GenerateStep(order: seq<string>, k: nat, on: map<string, string>, clear: set<string>, height: map<string, nat>,
                     supports: seq<string>, support: string, placed: map<string, string>)
    requires Distinct(order) && TableName !in order && k < |order|
    requires forall x :: x in on <==> x in order[..k]
    requires Placing(on, clear, height, supports)
    requires PlacedBefore(on, order, k)
    requires support in supports
    requires placed == on[order[k] := support]
    ensures forall x :: x in placed <==> x in order[..k + 1]
    ensures Placing(placed, Covered(clear, order[k], support), Raised(height, order[k], support),
                    Offered(supports, order[k], support))
    ensures PlacedBefore(placed, order, k + 1)
  {
    var block := order[k];
    assert block !in on by {
      assert forall m :: 0 <= m < k ==> order[m] != order[k];
    }
    PlaceStep(on, clear, height, supports, block, support);
    assert support == TableName || support in order[..k];
    PlacedBeforeStep(on, order, k, support);
    assert order[..k + 1] == order[..k] + [block];
  }

  /** Exchanging two positions of a list. */
  function Swap<T>(s: seq<T>, i: nat, j: nat): (r: seq<T>)
    requires i < |s| && j < |s|
    ensures |r| == |s|
  {
    s[i := s[j]][j := s[i]]
  }

  lemma SwapPermutes<T>(s: seq<T>, i: nat, j: nat)
    requires i < |s| && j < |s|
    ensures multiset(Swap(s, i, j)) == multiset(s)
  {
    if i != j {
      calc {
        multiset(Swap(s, i, j));
        multiset(s[i := s[j]]) - multiset{s[i := s[j]][j]} + multiset{s[i]};
        multiset(s) - multiset{s[i]} + multiset{s[j]} - multiset{s[j]} + multiset{s[i]};
      }
    }
  }

  /** The Fisher–Yates shuffle from position i on: i swaps with a drawn index in [i, |s|). */
  function ShuffleFrom<T>(s: seq<T>, draws: seq<real>, i: nat): (r: seq<T>)
    requires |draws| + 1 >= |s|
    requires forall k :: 0 <= k < |draws| ==> Draws.IsUnit(draws[k])
    decreases |s| - i
  {
    if i + 1 >= |s| then s
    else ShuffleFrom(Swap(s, i, Draws.IntRange(i, |s|, draws[i])), draws, i + 1)
  }

  lemma {:induction false} ShufflePermutes<T>(s: seq<T>, draws: seq<real>, i: nat)
    requires |draws| + 1 >= |s|
    requires forall k :: 0 <= k < |draws| ==> Draws.IsUnit(draws[k])
    ensures multiset(ShuffleFrom(s, draws, i)) == multiset(s)
    decreases |s| - i
  {
    if i + 1 < |s| {
      var j := Draws.IntRange(i, |s|, draws[i]);
      SwapPermutes(s, i, j);
      ShufflePermutes(Swap(s, i, j), draws, i + 1);
    }
  }

  /** Shuffles a list in place; draw i picks the partner of position i. */
  method Shuffle<T>(a: array<T>, draws: seq<real>)
    requires |draws| + 1 >= a.Length
    requires forall k :: 0 <= k < |draws| ==> Draws.IsUnit(draws[k])
    modifies a
    ensures a[..] == ShuffleFrom(old(a[..]), draws, 0)
    ensures multiset(a[..]) == multiset(old(a[..]))
  {
    ghost var original := a[..];
    var n := a.Length;
    var i := 0;
    while i < n - 1
      invariant 0 <= i <= if n == 0 then 0 else n - 1
      invariant |a[..]| == n
      invariant ShuffleFrom(a[..], draws, i) == ShuffleFrom(original, draws, 0)
    {
      var j := Draws.IntRange(i, n, draws[i]);
      ghost var before := a[..];
      a[i], a[j] := a[j], a[i];
      assert a[..] == Swap(before, i, j);
      i := i + 1;
    }
    ShufflePermutes(original, draws, 0);
  }

  /** How many of the listed blocks rest on the same support in both states. */
  function Matches(names: seq<string>, onA: map<string, string>, onB: map<string, string>): (n: nat)
    ensures n <= |names|
  {
    if names == [] then 0
    else
      var b := names[0];
      (if b in onA && b in onB && onA[b] == onB[b] then 1 else 0) + Matches(names[1..], onA, onB)
  }

  predicate AllMatch(names: seq<string>, onA: map<string, string>, onB: map<string, string>)
  {
    forall b :: b in names ==> b in onA && b in onB && onA[b] == onB[b]
  }

  lemma {:induction false} MatchesSymmetric(names: seq<string>, onA: map<string, string>, onB: map<string, string>)
    ensures Matches(names, onA, onB) == Matches(names, onB, onA)
  {
    if names != [] {
      MatchesSymmetric(names[1..], onA, onB);
    }
  }

  /** Every block matches exactly when the count reaches the number of blocks. */
  lemma {:induction false} MatchesAll(names: seq<string>, onA: map<string, string>, onB: map<string, string>)
    ensures Matches(names, onA, onB) == |names| <==> AllMatch(names, onA, onB)
  {
    if names != [] {
      MatchesAll(names[1..], onA, onB);
      assert names == [names[0]] + names[1..];
      assert forall b :: b in names ==> b == names[0] || b in names[1..];
    }
  }

  /** A state's On and OnTable facts, one per placed block, in block order. */
  function OnTerms(names: seq<string>, on: map<string, string>): (ts: seq<Term>)
    ensures |ts| <= |names|
  {
    if names == [] then []
    else
      var b := names[0];
      (if b !in on then [] else if on[b] == TableName then [OnTableTerm(b)] else [OnTerm(b, on[b])])
      + OnTerms(names[1..], on)
  }

  /** The Clear facts of the clear blocks, in block order. */
  function ClearTerms(names: seq<string>, clear: set<string>): (ts: seq<Term>)
    ensures |ts| <= |names|
  {
    if names == [] then []
    else (if names[0] in clear then [ClearTerm(names[0])] else []) + ClearTerms(names[1..], clear)
  }

  function OnTableTerm(b: string): Term
  {
    Statement(Atom(b), Inheritance, Atom("OnTable"))
  }

  function OnTerm(b: string, support: string): Term
  {
    Statement(Compound(Product, [Atom(b), Atom(support)]), Inheritance, Atom("On"))
  }

  function ClearTerm(b: string): Term
  {
    Statement(Atom(b), Inheritance, Atom("Clear"))
  }

  lemma {:induction false} OnTermsComplete(names: seq<string>, on: map<string, string>)
    requires forall b :: b in names ==> b in on
    ensures |OnTerms(names, on)| == |names|
    ensures forall k :: 0 <= k < |names| ==>
      OnTerms(names, on)[k] == if on[names[k]] == TableName then OnTableTerm(names[k]) else OnTerm(names[k], on[names[k]])
  {
    if names != [] {
      OnTermsComplete(names[1..], on);
    }
  }

  lemma {:induction false} ClearTermsMembers(names: seq<string>, clear: set<string>, t: Term)
    ensures t in ClearTerms(names, clear) <==> exists b :: b in names && b in clear && t == ClearTerm(b)
  {
    if names != [] {
      ClearTermsMembers(names[1..], clear, t);
      assert forall b :: b in names <==> b == names[0] || b in names[1..];
    }
  }

  /** The description string of a state without Clear facts. */
  function StateString(names: seq<string>, on: map<string, string>): string
  {
    if names == [] then ""
    else
      var b := names[0];
      (if b !in on then ""
       else if on[b] == TableName then " (" + b + " --> OnTable)"
       else " ((*," + b + ", " + on[b] + ") --> On)")
      + StateString(names[1..], on)
  }

  /** Two states that agree on every listed block are described by the same string. */
  lemma {:induction false} StateStringAgrees(names: seq<string>, onA: map<string, string>, onB: map<string, string>)
    requires AllMatch(names, onA, onB)
    ensures StateString(names, onA) == StateString(names, onB)
  {
    if names != [] {
      assert forall b :: b in names[1..] ==> b in names;
      StateStringAgrees(names[1..], onA, onB);
    }
  }

  class World {
    const names: seq<string>
    var on: map<string, string>
    var clear: set<string>
    var goalOn: map<string, string>
    var goalClear: set<string>
    var goalReached: bool
    ghost var height: map<string, nat>
    ghost var goalHeight: map<string, nat>

    ghost predicate Valid()
      reads this`on, this`clear, this`height, this`goalOn, this`goalClear, this`goalHeight
    {
      WellFormed(names, on, clear, height) && GoalValid()
    }

    ghost predicate GoalValid()
      reads this`goalOn, this`goalClear, this`goalHeight
    {
      WellFormed(names, goalOn, goalClear, goalHeight)
    }

    /**
      A world of n blocks whose goal and initial states are each one random
      state; the two draw lists of each feed its shuffle and its supports.
    */
    constructor(n: nat, goalShuffle: seq<real>, goalSupports: seq<real>, shuffle: seq<real>, supports: seq<real>)
      requires n <= MaxBlockIndex + 1
      requires |goalShuffle| + 1 >= n && |goalSupports| >= n && |shuffle| + 1 >= n && |supports| >= n
      requires forall k :: 0 <= k < |goalShuffle| ==> Draws.IsUnit(goalShuffle[k])
      requires forall k :: 0 <= k < |goalSupports| ==> Draws.IsUnit(goalSupports[k])
      requires forall k :: 0 <= k < |shuffle| ==> Draws.IsUnit(shuffle[k])
      requires forall k :: 0 <= k < |supports| ==> Draws.IsUnit(supports[k])
      ensures Valid()
      ensures names == Names(n) && !goalReached
    {
      names := Names(n);
      new;
      var order; ghost var h;
      goalOn, goalClear, h, order := GenerateRandomState(goalShuffle, goalSupports);
      goalHeight := h;
      on, clear, h, order := GenerateRandomState(shuffle, supports);
      height := h;
      goalReached := false;
    }

    predicate OnPredicate(x: string, y: string)
      reads this
    {
      x in on && on[x] == y
    }

    predicate OnTablePredicate(x: string)
      reads this
    {
      OnPredicate(x, TableName)
    }

    predicate ClearPredicate(x: string)
      reads this
    {
      x in clear
    }

    /**
      Whether Stack(top, bottom) may move: the goal is not yet reached, the
      blocks differ, both exist, top is not already on bottom and both are clear.
    */
    predicate CanStack(top: string, bottom: string)
      reads this
    {
      !goalReached && top != bottom && top in names && bottom in names
      && !OnPredicate(top, bottom) && top in clear && bottom in clear
    }

    /** Whether Unstack(b) may move: the goal is not yet reached, b exists, is clear and is not on the table. */
    predicate CanUnstack(b: string)
      reads this
    {
      !goalReached && b in names && b in clear && !OnTablePredicate(b)
    }

    /**
      A random state: the blocks in shuffled order each go on a support
      drawn among the table and the blocks placed so far that are still
      clear.
    */
    method GenerateRandomState(shuffleDraws: seq<real>, supportDraws: seq<real>)
      returns (onState: map<string, string>, clearState: set<string>, ghost heightState: map<string, nat>, order: seq<string>)
      requires Distinct(names) && TableName !in names
      requires |shuffleDraws| + 1 >= |names| && |supportDraws| >= |names|
      requires forall k :: 0 <= k < |shuffleDraws| ==> Draws.IsUnit(shuffleDraws[k])
      requires forall k :: 0 <= k < |supportDraws| ==> Draws.IsUnit(supportDraws[k])
      ensures order == ShuffleFrom(names, shuffleDraws, 0) && |order| == |names|
      ensures WellFormed(names, onState, clearState, heightState)
      ensures PlacedBefore(onState, order, |order|)
      ensures (onState, clearState) == Generation(order, supportDraws, 0, map[], {}, [TableName])
    {
      var local := names;
      var arr := new string[|local|](i requires 0 <= i < |local| => local[i]);
      assert arr[..] == local;
      Shuffle(arr, shuffleDraws);
      order := arr[..];
      OrderDistinct(local, order);
      assert TableName !in order;
      var supports: seq<string> := [TableName];
      onState, clearState, heightState := map[], {}, map[];
      var k := 0;
      while k < |order|
        invariant 0 <= k <= |order|
        invariant forall x :: x in onState <==> x in order[..k]
        invariant Placing(onState, clearState, heightState, supports)
        invariant PlacedBefore(onState, order, k)
        invariant |supports| > 0
        invariant Generation(order, supportDraws, k, onState, clearState, supports)
                  == Generation(order, supportDraws, 0, map[], {}, [TableName])
      {
        var block := order[k];
        var idx := Draws.IndexFromDraw(supportDraws[k], |supports|);
        var support := supports[idx];
        var placed := onState[block := support];
        GenerateStep(order, k, onState, clearState, heightState, supports, support, placed);
        heightState := Raised(heightState, block, support);
        onState := placed;
        clearState := Covered(clearState, block, support);
        supports := Offered(supports, block, support);
        k := k + 1;
      }
      assert order[..k] == order;
    }

    /** Recomputes `clear`: every block, minus every block some block rests on. */
    method RecomputeClear()
      modifies this`clear
      ensures clear == (set b | b in names) - Supports(on)
    {
      clear := Uncovered(names, on);
    }

    /** How many blocks rest on the same support in both states, walking the blocks in order. */
    method CountMatchingOn(onA: map<string, string>, onB: map<string, string>) returns (score: nat)
      ensures score == Matches(names, onA, onB)
    {
      var blocks := names;
      score := 0;
      var i := 0;
      while i < |blocks|
        invariant 0 <= i <= |blocks|
        invariant score + Matches(blocks[i..], onA, onB) == Matches(blocks, onA, onB)
      {
        assert blocks[i..][1..] == blocks[i + 1..];
        var b := blocks[i];
        if b in onA && b in onB && onA[b] == onB[b] {
          score := score + 1;
        }
        i := i + 1;
      }
    }

    /** Latches goalReached once every block rests on its goal support. */
    method CheckGoalReached()
      modifies this`goalReached
      ensures goalReached == (old(goalReached) || AllMatch(names, on, goalOn))
    {
      if goalReached {
        return;
      }
      var matches := CountMatchingOn(on, goalOn);
      MatchesAll(names, on, goalOn);
      if matches == |names| {
        goalReached := true;
      }
    }

    /**
      Stack(top, bottom) succeeds exactly when the goal is not yet reached,
      the blocks differ, both exist, top is not already on bottom and both
      are clear; it then puts top on bottom and nothing else moves.
    */
    method Stack(top: string, bottom: string) returns (ok: bool)
      requires Valid()
      modifies this`on, this`clear, this`height, this`goalReached
      ensures Valid()
      ensures ok <==> old(CanStack(top, bottom))
      ensures ok ==> on == old(on)[top := bottom] && clear == ClearOf(on)
                     && goalReached == AllMatch(names, on, goalOn)
      ensures !ok ==> on == old(on) && clear == old(clear) && goalReached == old(goalReached)
    {
      ok := StackGuard(top, bottom);
      if ok {
        ghost var goal := (goalOn, goalClear, goalHeight);
        Move(top, bottom);
        assert (goalOn, goalClear, goalHeight) == goal;
      }
    }

    /** The checks of Stack, in order; each failing one makes it return false. */
    method StackGuard(top: string, bottom: string) returns (ok: bool)
      ensures ok == CanStack(top, bottom)
    {
      if goalReached {
        return false;
      }
      if top == bottom {
        return false;
      }
      if top !in names || bottom !in names {
        return false;
      }
      if OnPredicate(top, bottom) {
        return false;
      }
      if !ClearPredicate(top) || !ClearPredicate(bottom) {
        return false;
      }
      return true;
    }

    /**
      Puts a clear block on a clear block or on the table, recomputes the
      clear blocks and the goal flag; the ghost height is the block's new height.
    */
    method Move(b: string, support: string)
      requires WellFormed(names, on, clear, height) && b in names && b in clear
      requires support == TableName || (support in names && support in clear && support != b)
      modifies this`on, this`clear, this`height, this`goalReached
      ensures WellFormed(names, on, clear, height)
      ensures on == old(on)[b := support] && clear == ClearOf(on)
      ensures goalReached == (old(goalReached) || AllMatch(names, on, goalOn))
    {
      Place(b, support);
      CheckGoalReached();
    }

    /** Puts the block on its new support and recomputes the clear blocks; the ghost height follows. */
    method Place(b: string, support: string)
      requires WellFormed(names, on, clear, height) && b in names && b in clear
      requires support == TableName || (support in names && support in clear && support != b)
      modifies this`on, this`clear, this`height
      ensures WellFormed(names, on, clear, height)
      ensures on == old(on)[b := support] && clear == ClearOf(on)
    {
      MoveKeepsWorld(names, on, clear, height, b, support);
      on, height := on[b := support], Raised(height, b, support);
      RecomputeClear();
      UncoveredClear(names, on);
    }

    /**
      Unstack(b) succeeds exactly when the goal is not yet reached, b exists,
      is clear and is not on the table; it then puts b on the table and
      nothing else moves.
    */
    method Unstack(b: string) returns (ok: bool)
      requires Valid()
      modifies this`on, this`clear, this`height, this`goalReached
      ensures Valid()
      ensures ok <==> old(CanUnstack(b))
      ensures ok ==> on == old(on)[b := TableName] && clear == ClearOf(on)
                     && goalReached == AllMatch(names, on, goalOn)
      ensures !ok ==> on == old(on) && clear == old(clear) && goalReached == old(goalReached)
    {
      ok := UnstackGuard(b);
      if ok {
        ghost var goal := (goalOn, goalClear, goalHeight);
        Move(b, TableName);
        assert (goalOn, goalClear, goalHeight) == goal;
      }
    }

    /** The checks of Unstack, in order; each failing one makes it return false. */
    method UnstackGuard(b: string) returns (ok: bool)
      ensures ok == CanUnstack(b)
    {
      if goalReached {
        return false;
      }
      if b !in names {
        return false;
      }
      if !ClearPredicate(b) {
        return false;
      }
      if OnTablePredicate(b) {
        return false;
      }
      return true;
    }

    /**
      The fitness of the current state: the number of blocks on their goal
      support, ten times that when the two state descriptions coincide.
    */
    method GetFitnessForWorldState() returns (fitness: real)
      requires Valid()
      ensures fitness == (if StateString(names, on) == StateString(names, goalOn)
                          then 10 * Matches(names, on, goalOn) else Matches(names, on, goalOn)) as real
      ensures 0.0 <= fitness <= (10 * |names|) as real
      ensures AllMatch(names, on, goalOn) ==> fitness == (10 * |names|) as real
    {
      var current := StateString(names, on);
      var goal := StateString(names, goalOn);
      var matches := CountMatchingOn(on, goalOn);
      if AllMatch(names, on, goalOn) {
        StateStringAgrees(names, on, goalOn);
        MatchesAll(names, on, goalOn);
      }
      if current == goal {
        fitness := (matches * 10) as real;
      } else {
        fitness := matches as real;
      }
    }

    /**
      The current state as sensed: an On or OnTable fact per block in block
      order, then a Clear fact per clear block.
    */
    method GetCurrentState() returns (states: seq<Term>)
      ensures states == OnTerms(names, on) + ClearTerms(names, clear)
    {
      var onTerms := OnFacts(names, on);
      var clearTerms := ClearFacts(names, clear);
      states := onTerms + clearTerms;
    }
  }

  /** The On and OnTable facts of the listed blocks, one pass in list order. */
  method OnFacts(blocks: seq<string>, pairs: map<string, string>) returns (ts: seq<Term>)
    ensures ts == OnTerms(blocks, pairs)
  {
    ts := [];
    var i := 0;
    while i < |blocks|
      invariant 0 <= i <= |blocks|
      invariant ts + OnTerms(blocks[i..], pairs) == OnTerms(blocks, pairs)
    {
      assert blocks[i..][1..] == blocks[i + 1..];
      var b := blocks[i];
      if b in pairs {
        if pairs[b] == TableName {
          ts := ts + [OnTableTerm(b)];
        } else {
          ts := ts + [OnTerm(b, pairs[b])];
        }
      }
      i := i + 1;
    }
  }

  /** The Clear facts of the listed blocks that are clear, one pass in list order. */
  method ClearFacts(blocks: seq<string>, clear: set<string>) returns (ts: seq<Term>)
    ensures ts == ClearTerms(blocks, clear)
  {
    ts := [];
    var i := 0;
    while i < |blocks|
      invariant 0 <= i <= |blocks|
      invariant ts + ClearTerms(blocks[i..], clear) == ClearTerms(blocks, clear)
    {
      assert blocks[i..][1..] == blocks[i + 1..];
      if blocks[i] in clear {
        ts := ts + [ClearTerm(blocks[i])];
      }
      i := i + 1;
    }
  }

  /** All listed blocks minus those some block rests on: first every block, then every support removed. */
  method Uncovered(blocks: seq<string>, pairs: map<string, string>) returns (acc: set<string>)
    ensures acc == (set x | x in blocks) - Supports(pairs)
  {
    var all := Listed(blocks);
    acc := WithoutSupports(all, pairs);
  }

  /** The set of the listed blocks, one pass in list order. */
  method Listed(blocks: seq<string>) returns (acc: set<string>)
    ensures acc == set x | x in blocks
  {
    acc := {};
    var i := 0;
    while i < |blocks|
      invariant 0 <= i <= |blocks|
      invariant acc == set x | x in blocks[..i]
    {
      assert blocks[..i + 1] == blocks[..i] + [blocks[i]];
      acc := acc + {blocks[i]};
      i := i + 1;
    }
    assert blocks[..i] == blocks;
  }

  /** Removes from a set the support of every block that rests on a block, one pair at a time. */
  method WithoutSupports(all: set<string>, pairs: map<string, string>) returns (acc: set<string>)
    ensures acc == all - Supports(pairs)
  {
    acc := all;
    var remaining := pairs.Keys;
    ghost var seen: set<string> := {};
    while remaining != {}
      invariant remaining + seen == pairs.Keys && remaining !! seen
      invariant acc == all - SupportsOf(pairs, seen)
      decreases |remaining|
    {
      var key :| key in remaining;
      SupportsOfStep(pairs, seen, key);
      if pairs[key] != TableName {
        acc := acc - {pairs[key]};
      }
      remaining := remaining - {key};
      seen := seen + {key};
    }
    assert seen == pairs.Keys;
    assert SupportsOf(pairs, seen) == Supports(pairs);
  }

  /** A permutation of distinct names is distinct and holds the same names. */
  lemma OrderDistinct(names: seq<string>, order: seq<string>)
    requires Distinct(names) && multiset(order) == multiset(names)
    ensures Distinct(order) && forall x :: x in order <==> x in names
  {
    forall a, b | 0 <= a < b < |order| ensures order[a] != order[b] {
      if order[a] == order[b] {
        assert multiset(order)[order[a]] >= 2 by {
          assert order == order[..a] + [order[a]] + order[a + 1..b] + [order[b]] + order[b + 1..];
        }
        MultiplicityOne(names, order[a]);
      }
    }
    forall x ensures x in order <==> x in names {
      assert x in order <==> x in multiset(order);
      assert x in names <==> x in multiset(names);
    }
  }

  lemma {:induction false} MultiplicityOne(names: seq<string>, x: string)
    requires Distinct(names)
    ensures multiset(names)[x] <= 1
  {
    if names != [] {
      assert Distinct(names[1..]) by {
        forall a, b | 0 <= a < b < |names[1..]| ensures names[1..][a] != names[1..][b] {
          assert names[1..][a] == names[a + 1] && names[1..][b] == names[b + 1];
        }
      }
      MultiplicityOne(names[1..], x);
      assert names == [names[0]] + names[1..];
      if names[0] == x {
        assert x !in names[1..] by {
          forall k | 0 <= k < |names[1..]| ensures names[1..][k] != x {
            assert names[1..][k] == names[k + 1];
          }
        }
      }
    }
  }
}
