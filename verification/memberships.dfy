/** The running membership total under interleaving. Every request first changes the sets in
    one transaction and only then moves the total by what that transaction reported; other
    requests run in between, and a request may stop before its second step for good. */
module Memberships {
  import opened FeedTypes
  import opened AudienceIndex

  /** `owed[a]` is what request slot `a` has still to add to the total; `lost` collects what
      requests that died never added. */
  datatype Index = Index(members: set<Membership>, total: int, owed: seq<int>, lost: int)

  datatype Move =
    | Change(slot: nat, joins: set<Membership>, leaves: set<Membership>)
    | Settle(slot: nat)
    | Die(slot: nat)

  /** A slot serves one request at a time. */
  predicate Can(x: Index, m: Move) {
    m.slot < |x.owed| && (m.Change? ==> x.owed[m.slot] == 0)
  }

  function Next(x: Index, m: Move): Index
    requires Can(x, m)
  {
    match m
    case Change(a, joins, leaves) =>
      var members := x.members - leaves + joins;
      x.(members := members, owed := x.owed[a := |members| - |x.members|])
    case Settle(a) => x.(total := x.total + x.owed[a], owed := x.owed[a := 0])
    case Die(a) => x.(lost := x.lost + x.owed[a], owed := x.owed[a := 0])
  }

  function Sum(xs: seq<int>): int {
    if xs == [] then 0 else xs[0] + Sum(xs[1..])
  }

  predicate Runs(x: Index, moves: seq<Move>)
    decreases |moves|
  {
    moves != [] ==> Can(x, moves[0]) && Runs(Next(x, moves[0]), moves[1..])
  }

  function End(x: Index, moves: seq<Move>): Index
    requires Runs(x, moves)
    decreases |moves|
  {
    if moves == [] then x else End(Next(x, moves[0]), moves[1..])
  }

  lemma {:induction false} SumUpdate(xs: seq<int>, i: nat, v: int)
    requires i < |xs|
    ensures Sum(xs[i := v]) == Sum(xs) - xs[i] + v
  {
    if i == 0 {
      assert xs[0 := v][1..] == xs[1..];
    } else {
      SumUpdate(xs[1..], i - 1, v);
      assert xs[i := v][1..] == xs[1..][i - 1 := v];
    }
  }

  /** What the total, the unsettled requests and the dead ones account for, together. */
  function Accounted(x: Index): int {
    x.total + Sum(x.owed) + x.lost
  }

  /** Over every run, the memberships that appeared are accounted for to the last one. */
  lemma {:induction false} EveryMembershipIsAccounted(x: Index, moves: seq<Move>)
    requires Runs(x, moves)
    ensures |End(x, moves).members| - |x.members| == Accounted(End(x, moves)) - Accounted(x)
    decreases |moves|
  {
    if moves != [] {
      var m := moves[0];
      var value := match m case Change(_, _, _) => |Next(x, m).members| - |x.members| case Settle(_) => 0 case Die(_) => 0;
      SumUpdate(x.owed, m.slot, value);
      EveryMembershipIsAccounted(Next(x, m), moves[1..]);
    }
  }

  /** A consistent start: nothing owed, nothing lost, the total exact. */
  predicate Settled(x: Index) {
    x.total == |x.members| && x.lost == 0 && forall a :: 0 <= a < |x.owed| ==> x.owed[a] == 0
  }

  lemma {:induction false} SumOfZeros(xs: seq<int>)
    requires forall a :: 0 <= a < |xs| ==> xs[a] == 0
    ensures Sum(xs) == 0
  {
    if xs != [] {
      SumOfZeros(xs[1..]);
    }
  }

  lemma {:induction false} SumAtMostZero(xs: seq<int>)
    requires forall a :: 0 <= a < |xs| ==> xs[a] <= 0
    ensures Sum(xs) <= 0
  {
    if xs != [] {
      SumAtMostZero(xs[1..]);
    }
  }

  /** Whenever no request is between its two steps, the total is off by exactly what dead
      requests never applied. */
  lemma TotalIsExactAtRest(x: Index, moves: seq<Move>)
    requires Settled(x) && Runs(x, moves)
    requires forall a :: 0 <= a < |End(x, moves).owed| ==> End(x, moves).owed[a] == 0
    ensures End(x, moves).total == |End(x, moves).members| - End(x, moves).lost
  {
    EveryMembershipIsAccounted(x, moves);
    SumOfZeros(x.owed);
    SumOfZeros(End(x, moves).owed);
  }

  /** The total goes below zero only while an addition is still owed, or was lost. */
  lemma NegativeTotalMeansOwed(x: Index, moves: seq<Move>)
    requires Settled(x) && Runs(x, moves) && End(x, moves).total < 0
    ensures End(x, moves).lost > 0 || exists a :: 0 <= a < |End(x, moves).owed| && End(x, moves).owed[a] > 0
  {
    EveryMembershipIsAccounted(x, moves);
    SumOfZeros(x.owed);
    var y := End(x, moves);
    if forall a :: 0 <= a < |y.owed| ==> y.owed[a] <= 0 {
      SumAtMostZero(y.owed);
    }
  }

  /** Exactly: the total is negative if and only if what requests have still to add, and what dead
      ones never added, exceeds the memberships there are. */
  lemma NegativeTotalExactly(x: Index, moves: seq<Move>)
    requires Settled(x) && Runs(x, moves)
    ensures End(x, moves).total < 0 <==> |End(x, moves).members| < Sum(End(x, moves).owed) + End(x, moves).lost
  {
    EveryMembershipIsAccounted(x, moves);
    SumOfZeros(x.owed);
  }

  /** And it can be: a leave settled before the join it undoes takes the total to minus one. */
  lemma TotalCanDipBelowZero(m: Membership)
    ensures
      var x := Index({}, 0, [0, 0], 0);
      var moves := [Change(0, {m}, {}), Change(1, {}, {m}), Settle(1)];
      Settled(x) && Runs(x, moves) && End(x, moves).total == -1 && End(x, moves).members == {}
  {
    var x := Index({}, 0, [0, 0], 0);
    var joined := Next(x, Change(0, {m}, {}));
    assert joined.members == {m};
    assert joined == Index({m}, 0, [1, 0], 0);
    var left := Next(joined, Change(1, {}, {m}));
    assert left.members == {};
    assert left == Index({}, 0, [1, -1], 0);
    var settled := Next(left, Settle(1));
    assert settled == Index({}, -1, [1, 0], 0);
    var moves := [Change(0, {m}, {}), Change(1, {}, {m}), Settle(1)];
    assert moves[1..][1..] == [Settle(1)] && [Settle(1)][1..] == [];
    assert Runs(settled, []) && End(settled, []) == settled;
    assert Runs(left, [Settle(1)]) && End(left, [Settle(1)]) == settled;
    assert moves[1..] == [Change(1, {}, {m}), Settle(1)];
    assert Runs(joined, moves[1..]) && End(joined, moves[1..]) == settled;
  }
}
