/** Balancing shards over groups: which group is the most and the least loaded, the assignment of
    homeless shards, the moves from most to least loaded, and what they guarantee. */
module ShardBalance {
  import Tallies

  type Gid = int

  /** shards[s] is the group that serves shard s. */
  type Shards = seq<Gid>

  ghost function Load(x: Shards, g: Gid): nat {
    multiset(x)[g]
  }

  /** Smaller load first, smaller gid on a tie. */
  ghost predicate Lighter(x: Shards, g: Gid, h: Gid) {
    Load(x, g) < Load(x, h) || (Load(x, g) == Load(x, h) && g <= h)
  }

  /** Larger load first, smaller gid on a tie. */
  ghost predicate Heavier(x: Shards, g: Gid, h: Gid) {
    Load(x, g) > Load(x, h) || (Load(x, g) == Load(x, h) && g <= h)
  }

  lemma Inhabited(gids: set<Gid>)
    requires gids != {}
    ensures exists g :: g in gids
  {
    assert (forall g :: g !in gids) ==> gids == {};
  }

  ghost function Least(x: Shards, gids: set<Gid>): (g: Gid)
    requires gids != {}
    ensures g in gids && forall h :: h in gids ==> Lighter(x, g, h)
  {
    Inhabited(gids);
    var p :| p in gids;
    assert forall h :: h in gids <==> h == p || h in gids - {p};
    if gids == {p} then p
    else
      var q := Least(x, gids - {p});
      if Lighter(x, p, q) then p else q
  }

  ghost function Most(x: Shards, gids: set<Gid>): (g: Gid)
    requires gids != {}
    ensures g in gids && forall h :: h in gids ==> Heavier(x, g, h)
  {
    Inhabited(gids);
    var p :| p in gids;
    assert forall h :: h in gids <==> h == p || h in gids - {p};
    if gids == {p} then p
    else
      var q := Most(x, gids - {p});
      if Heavier(x, p, q) then p else q
  }

  lemma LeastIs(x: Shards, gids: set<Gid>, g: Gid)
    requires g in gids && forall h :: h in gids ==> Lighter(x, g, h)
    ensures Least(x, gids) == g
  {
    assert Lighter(x, g, Least(x, gids)) && Lighter(x, Least(x, gids), g);
  }

  lemma MostIs(x: Shards, gids: set<Gid>, g: Gid)
    requires g in gids && forall h :: h in gids ==> Heavier(x, g, h)
    ensures Most(x, gids) == g
  {
    assert Heavier(x, g, Most(x, gids)) && Heavier(x, Most(x, gids), g);
  }

  ghost predicate Ascending(gs: seq<Gid>) {
    forall i, j :: 0 <= i < j < |gs| ==> gs[i] < gs[j]
  }

  ghost predicate AllLive(x: Shards, gids: set<Gid>) {
    forall s :: 0 <= s < |x| ==> x[s] in gids
  }

  /** Loads of any two groups differ by at most one. */
  ghost predicate Level(x: Shards, gids: set<Gid>) {
    forall g, h :: g in gids && h in gids ==> Load(x, g) <= Load(x, h) + 1
  }

  /** From shard i on, each shard without a live group goes to the least loaded one. */
  ghost function AssignFrom(x: Shards, gids: set<Gid>, i: nat): (y: Shards)
    requires gids != {} && i <= |x|
    ensures |y| == |x|
    decreases |x| - i
  {
    if i == |x| then x
    else if x[i] in gids then AssignFrom(x, gids, i + 1)
    else AssignFrom(x[i := Least(x, gids)], gids, i + 1)
  }

  ghost predicate Settled(x: Shards, gids: set<Gid>)
    requires gids != {}
  {
    Load(x, Most(x, gids)) < Load(x, Least(x, gids)) + 2
  }

  /** The first shard served by g. */
  ghost function FirstOf(x: Shards, g: Gid): (s: nat)
    requires Load(x, g) > 0
    ensures s < |x| && x[s] == g && forall t :: 0 <= t < s ==> x[t] != g
    decreases |x|
  {
    assert g in x;
    if x[0] == g then 0
    else
      assert x == [x[0]] + x[1..];
      FirstOf(x[1..], g) + 1
  }

  /** One move, from the most to the least loaded group. */
  ghost function Move(x: Shards, gids: set<Gid>): (y: Shards)
    requires gids != {} && !Settled(x, gids)
    ensures |y| == |x|
  {
    x[FirstOf(x, Most(x, gids)) := Least(x, gids)]
  }

  // --- Termination: the sum of squared loads falls with every move ---

  ghost function Energy(x: Shards, gids: set<Gid>): nat {
    if gids == {} then 0
    else
      Inhabited(gids);
      var g :| g in gids;
      Load(x, g) * Load(x, g) + Energy(x, gids - {g})
  }

  lemma {:induction false} EnergySplit(x: Shards, gids: set<Gid>, g: Gid)
    requires g in gids
    ensures Energy(x, gids) == Load(x, g) * Load(x, g) + Energy(x, gids - {g})
    decreases |gids|
  {
    var p :| p in gids && Energy(x, gids) == Load(x, p) * Load(x, p) + Energy(x, gids - {p});
    if p != g {
      EnergySplit(x, gids - {p}, g);
      EnergySplit(x, gids - {g}, p);
      assert gids - {p} - {g} == gids - {g} - {p};
    }
  }

  lemma {:induction false} EnergySame(x: Shards, y: Shards, gids: set<Gid>)
    requires forall g :: g in gids ==> Load(x, g) == Load(y, g)
    ensures Energy(x, gids) == Energy(y, gids)
    decreases |gids|
  {
    if gids != {} {
      Inhabited(gids);
      var g :| g in gids;
      EnergySplit(x, gids, g);
      EnergySplit(y, gids, g);
      EnergySame(x, y, gids - {g});
    }
  }

  /** How a move changes the loads. */
  lemma MoveLoads(x: Shards, gids: set<Gid>)
    requires gids != {} && !Settled(x, gids)
    ensures var y, m, l := Move(x, gids), Most(x, gids), Least(x, gids);
            && m != l
            && Load(y, m) == Load(x, m) - 1
            && Load(y, l) == Load(x, l) + 1
            && forall g :: g != m && g != l ==> Load(y, g) == Load(x, g)
  {
    var m, l := Most(x, gids), Least(x, gids);
    assert multiset(Move(x, gids)) == multiset(x) - multiset{m} + multiset{l};
  }

  lemma Squares(a: nat, b: nat)
    requires a >= b + 2
    ensures (a - 1) * (a - 1) + (b + 1) * (b + 1) < a * a + b * b
  {
    assert (a - 1) * (a - 1) == a * a - 2 * a + 1;
    assert (b + 1) * (b + 1) == b * b + 2 * b + 1;
  }

  lemma MoveLowersEnergy(x: Shards, gids: set<Gid>)
    requires gids != {} && !Settled(x, gids)
    ensures Energy(Move(x, gids), gids) < Energy(x, gids)
  {
    var y, m, l := Move(x, gids), Most(x, gids), Least(x, gids);
    MoveLoads(x, gids);
    EnergySplit(x, gids, m);
    EnergySplit(x, gids - {m}, l);
    EnergySplit(y, gids, m);
    EnergySplit(y, gids - {m}, l);
    EnergySame(x, y, gids - {m} - {l});
    Squares(Load(x, m), Load(x, l));
  }

  ghost function Settle(x: Shards, gids: set<Gid>): (y: Shards)
    requires gids != {}
    ensures |y| == |x|
    decreases Energy(x, gids)
  {
    if Settled(x, gids) then x
    else
      MoveLowersEnergy(x, gids);
      Settle(Move(x, gids), gids)
  }

  /** What Rebalance computes: a function of the shard array and the set of gids alone. */
  ghost function Rebalanced(x: Shards, gids: set<Gid>): (y: Shards)
    ensures |y| == |x|
  {
    if gids == {} then seq(|x|, _ => 0) else Settle(AssignFrom(x, gids, 0), gids)
  }

  // --- Balance ---

  lemma SettledIsLevel(x: Shards, gids: set<Gid>)
    requires gids != {}
    ensures Settled(x, gids) <==> Level(x, gids)
  {
    var m, l := Most(x, gids), Least(x, gids);
    assert Heavier(x, m, l) && Lighter(x, l, m);
    if Settled(x, gids) {
      forall g, h | g in gids && h in gids ensures Load(x, g) <= Load(x, h) + 1 {
        assert Heavier(x, m, g) && Lighter(x, l, h);
      }
    }
  }

  lemma {:induction false} AssignedAllLive(x: Shards, gids: set<Gid>, i: nat)
    requires gids != {} && i <= |x| && forall s :: 0 <= s < i ==> x[s] in gids
    ensures AllLive(AssignFrom(x, gids, i), gids)
    decreases |x| - i
  {
    if i < |x| {
      AssignedAllLive(if x[i] in gids then x else x[i := Least(x, gids)], gids, i + 1);
    }
  }

  lemma {:induction false} SettleBalances(x: Shards, gids: set<Gid>)
    requires gids != {} && AllLive(x, gids)
    ensures AllLive(Settle(x, gids), gids) && Level(Settle(x, gids), gids)
    decreases Energy(x, gids)
  {
    SettledIsLevel(x, gids);
    if !Settled(x, gids) {
      MoveLowersEnergy(x, gids);
      SettleBalances(Move(x, gids), gids);
    }
  }

  /** Rebalancing any configuration puts every shard on a live group and levels the loads; without
      groups it unassigns every shard. */
  lemma RebalanceBalances(x: Shards, gids: set<Gid>)
    ensures gids != {} ==> AllLive(Rebalanced(x, gids), gids) && Level(Rebalanced(x, gids), gids)
    ensures gids == {} ==> forall s :: 0 <= s < |x| ==> Rebalanced(x, gids)[s] == 0
  {
    if gids != {} {
      AssignedAllLive(x, gids, 0);
      SettleBalances(AssignFrom(x, gids, 0), gids);
    }
  }

  // --- Leaving: only the shards of the leaving groups change owner ---

  lemma AssignKeepsLevel(x: Shards, gids: set<Gid>, i: nat)
    requires gids != {} && i < |x| && x[i] !in gids && Level(x, gids)
    ensures Level(x[i := Least(x, gids)], gids)
  {
    var l := Least(x, gids);
    var y := x[i := l];
    assert multiset(y) == multiset(x) - multiset{x[i]} + multiset{l};
    forall g, h | g in gids && h in gids ensures Load(y, g) <= Load(y, h) + 1 {
      assert Lighter(x, l, h);
    }
  }

  lemma {:induction false} AssignKeepsLive(x: Shards, gids: set<Gid>, i: nat)
    requires gids != {} && i <= |x| && Level(x, gids)
    ensures Level(AssignFrom(x, gids, i), gids)
    ensures forall s :: 0 <= s < |x| && x[s] in gids ==> AssignFrom(x, gids, i)[s] == x[s]
    decreases |x| - i
  {
    if i < |x| {
      if x[i] !in gids {
        AssignKeepsLevel(x, gids, i);
        AssignKeepsLive(x[i := Least(x, gids)], gids, i + 1);
      } else {
        AssignKeepsLive(x, gids, i + 1);
      }
    }
  }

  /** With a surviving group, leaving a level configuration changes the owner of exactly the shards
      whose group left. */
  lemma LeaveMovesOnlyOrphans(x: Shards, gids: set<Gid>, stay: set<Gid>)
    requires stay != {} && stay <= gids && AllLive(x, gids) && Level(x, gids)
    ensures forall s :: 0 <= s < |x| ==> (Rebalanced(x, stay)[s] == x[s] <==> x[s] in stay)
  {
    AssignKeepsLive(x, stay, 0);
    SettledIsLevel(AssignFrom(x, stay, 0), stay);
    RebalanceBalances(x, stay);
  }

  // --- Joining: shards move only onto joining groups, each at most once, and as few as possible ---

  ghost function Changed(x: Shards, y: Shards): set<nat>
    requires |x| == |y|
  {
    set s: nat | s < |x| && x[s] != y[s]
  }

  /** How many moves the settling loop makes. */
  ghost function Moves(x: Shards, gids: set<Gid>): nat
    requires gids != {}
    decreases Energy(x, gids)
  {
    if Settled(x, gids) then 0
    else
      MoveLowersEnergy(x, gids);
      1 + Moves(Move(x, gids), gids)
  }

  /** While settling after a join: x0 is the configuration before, with its groups old. */
  ghost predicate Joining(x0: Shards, x: Shards, prior: set<Gid>, join: set<Gid>) {
    && |x| == |x0| && AllLive(x0, prior)
    && (forall s :: 0 <= s < |x| ==> x[s] == x0[s] || x[s] in join)
    && Level(x, prior) && Level(x, join)
    && (forall g, h :: g in join && h in prior ==> Load(x, g) <= Load(x, h))
  }

  lemma MoveJoins(x0: Shards, x: Shards, prior: set<Gid>, join: set<Gid>)
    requires prior != {} && prior !! join && Joining(x0, x, prior, join) && !Settled(x, prior + join)
    ensures Joining(x0, Move(x, prior + join), prior, join)
    ensures |Changed(x0, Move(x, prior + join))| == |Changed(x0, x)| + 1
  {
    var gids := prior + join;
    var y := Move(x, gids);
    MovedOne(x0, x, prior, join);
    forall g, h | g in gids && h in gids
      ensures g in prior && h in prior ==> Load(y, g) <= Load(y, h) + 1
      ensures g in join && h in join ==> Load(y, g) <= Load(y, h) + 1
      ensures g in join && h in prior ==> Load(y, g) <= Load(y, h)
    {
      MovedLoads(x0, x, prior, join, g, h);
    }
  }

  /** A move changes one shard, which had not changed before, to a joining group. */
  lemma MovedOne(x0: Shards, x: Shards, prior: set<Gid>, join: set<Gid>)
    requires prior != {} && prior !! join && Joining(x0, x, prior, join) && !Settled(x, prior + join)
    ensures var y := Move(x, prior + join);
            && |y| == |x0| && (forall s :: 0 <= s < |y| ==> y[s] == x0[s] || y[s] in join)
            && |Changed(x0, y)| == |Changed(x0, x)| + 1
  {
    var y, m := Move(x, prior + join), Most(x, prior + join);
    SourceAndTarget(x0, x, prior, join);
    MoveLoads(x, prior + join);
    var s := FirstOf(x, m);
    assert x[s] == x0[s];
    assert Changed(x0, y) == Changed(x0, x) + {s};
  }

  lemma MovedLoads(x0: Shards, x: Shards, prior: set<Gid>, join: set<Gid>, g: Gid, h: Gid)
    requires prior != {} && prior !! join && Joining(x0, x, prior, join) && !Settled(x, prior + join)
    requires g in prior + join && h in prior + join
    ensures var y := Move(x, prior + join);
            && (g in prior && h in prior ==> Load(y, g) <= Load(y, h) + 1)
            && (g in join && h in join ==> Load(y, g) <= Load(y, h) + 1)
            && (g in join && h in prior ==> Load(y, g) <= Load(y, h))
  {
    var gids := prior + join;
    var m, l := Most(x, gids), Least(x, gids);
    MoveLoads(x, gids);
    SourceAndTarget(x0, x, prior, join);
    assert Heavier(x, m, g) && Heavier(x, m, h) && Lighter(x, l, g) && Lighter(x, l, h);
    assert h in prior ==> Load(x, m) <= Load(x, h) + 1;
    assert g in join ==> Load(x, g) <= Load(x, l) + 1;
  }

  /** A move after a join goes from an old group to a joining one. */
  lemma SourceAndTarget(x0: Shards, x: Shards, prior: set<Gid>, join: set<Gid>)
    requires prior != {} && prior !! join && Joining(x0, x, prior, join) && !Settled(x, prior + join)
    ensures Most(x, prior + join) in prior && Least(x, prior + join) in join
  {
    var gids := prior + join;
    var m, l := Most(x, gids), Least(x, gids);
    assert Load(x, m) >= Load(x, l) + 2;
  }

  lemma {:induction false} SettleJoins(x0: Shards, x: Shards, prior: set<Gid>, join: set<Gid>)
    requires prior != {} && prior !! join && Joining(x0, x, prior, join)
    ensures Joining(x0, Settle(x, prior + join), prior, join)
    ensures |Changed(x0, Settle(x, prior + join))| == |Changed(x0, x)| + Moves(x, prior + join)
    decreases Energy(x, prior + join)
  {
    if !Settled(x, prior + join) {
      MoveLowersEnergy(x, prior + join);
      MoveJoins(x0, x, prior, join);
      SettleJoins(x0, Move(x, prior + join), prior, join);
    }
  }

  lemma {:induction false} AssignNothing(x: Shards, gids: set<Gid>, i: nat)
    requires gids != {} && i <= |x| && AllLive(x, gids)
    ensures AssignFrom(x, gids, i) == x
    decreases |x| - i
  {
    if i < |x| {
      AssignNothing(x, gids, i + 1);
    }
  }

  /** From a level configuration with at least one group, a join moves shards only onto the joining
      groups, and makes exactly as many moves as shards change owner: none moves twice. */
  lemma JoinMovesOntoJoiners(x: Shards, prior: set<Gid>, join: set<Gid>)
    requires prior != {} && prior !! join && AllLive(x, prior) && Level(x, prior)
    ensures var y := Rebalanced(x, prior + join);
            && Joining(x, y, prior, join)
            && |Changed(x, y)| == Moves(x, prior + join)
  {
    AssignNothing(x, prior + join, 0);
    forall g | g in join ensures Load(x, g) == 0 {
      assert forall s :: 0 <= s < |x| ==> x[s] != g;
      assert g !in x;
    }
    assert Changed(x, x) == {};
    SettleJoins(x, x, prior, join);
  }

  /** How many shards are served by a group in the set. */
  ghost function CountIn(x: Shards, gids: set<Gid>): nat
    decreases |x|
  {
    if x == [] then 0 else CountIn(x[..|x| - 1], gids) + if x[|x| - 1] in gids then 1 else 0
  }

  lemma {:induction false} CountSplit(x: Shards, gids: set<Gid>, g: Gid)
    requires g in gids
    ensures CountIn(x, gids) == Load(x, g) + CountIn(x, gids - {g})
    decreases |x|
  {
    if x != [] {
      CountSplit(x[..|x| - 1], gids, g);
      assert x == x[..|x| - 1] + [x[|x| - 1]];
    }
  }

  lemma {:induction false} CountNone(x: Shards)
    ensures CountIn(x, {}) == 0
    decreases |x|
  {
    if x != [] {
      CountNone(x[..|x| - 1]);
    }
  }

  lemma {:induction false} CountUnion(x: Shards, a: set<Gid>, b: set<Gid>)
    requires a !! b && AllLive(x, a + b)
    ensures CountIn(x, a) + CountIn(x, b) == |x|
    decreases |x|
  {
    if x != [] {
      CountUnion(x[..|x| - 1], a, b);
      assert x[|x| - 1] in a + b;
    }
  }

  lemma {:induction false} CountMonotone(x: Shards, y: Shards, gids: set<Gid>)
    requires forall g :: g in gids ==> Load(x, g) <= Load(y, g)
    ensures CountIn(x, gids) <= CountIn(y, gids)
    decreases |gids|
  {
    if gids == {} {
      CountNone(x);
      CountNone(y);
    } else {
      Inhabited(gids);
      var g :| g in gids;
      CountSplit(x, gids, g);
      CountSplit(y, gids, g);
      CountMonotone(x, y, gids - {g});
    }
  }

  ghost function Indices(x: Shards, gids: set<Gid>): set<nat> {
    set s: nat | s < |x| && x[s] in gids
  }

  lemma {:induction false} CountIndices(x: Shards, gids: set<Gid>)
    ensures |Indices(x, gids)| == CountIn(x, gids)
    decreases |x|
  {
    if x == [] {
      assert Indices(x, gids) == {};
    } else {
      var init := x[..|x| - 1];
      CountIndices(init, gids);
      assert Indices(x, gids) == Indices(init, gids) + if x[|x| - 1] in gids then {|x| - 1} else {};
    }
  }

  /** Any level assignment gives the joining groups at least as many shards as the join does. */
  lemma JoinersGetFewest(x: Shards, y: Shards, z: Shards, prior: set<Gid>, join: set<Gid>)
    requires |z| == |y| && prior !! join && Joining(x, y, prior, join) && AllLive(y, prior + join)
    requires AllLive(z, prior + join) && Level(z, prior + join)
    ensures CountIn(y, join) <= CountIn(z, join)
  {
    if forall g :: g in join ==> Load(y, g) <= Load(z, g) {
      CountMonotone(y, z, join);
    } else {
      var g :| g in join && Load(z, g) < Load(y, g);
      forall h | h in prior ensures Load(z, h) <= Load(y, h) {
        assert Load(z, h) <= Load(z, g) + 1 && Load(y, g) <= Load(y, h);
      }
      CountMonotone(z, y, prior);
      CountUnion(y, prior, join);
      CountUnion(z, prior, join);
    }
  }

  /** No level assignment over all the groups can be reached from the configuration before the join
      by changing the owner of fewer shards. */
  lemma JoinIsOptimal(x: Shards, prior: set<Gid>, join: set<Gid>, z: Shards)
    requires prior != {} && prior !! join && AllLive(x, prior) && Level(x, prior)
    requires |z| == |x| && AllLive(z, prior + join) && Level(z, prior + join)
    ensures |Changed(x, Rebalanced(x, prior + join))| <= |Changed(x, z)|
  {
    var y := Rebalanced(x, prior + join);
    JoinMovesOntoJoiners(x, prior, join);
    RebalanceBalances(x, prior + join);
    JoinersGetFewest(x, y, z, prior, join);
    CountIndices(y, join);
    CountIndices(z, join);
    assert Changed(x, y) == Indices(y, join) by {
      forall s: nat | s < |x| ensures x[s] != y[s] <==> y[s] in join {
        assert x[s] in prior;
      }
    }
    forall s: nat | s in Indices(z, join) ensures s in Changed(x, z) {
      assert x[s] in prior;
    }
    Tallies.SubsetSize(Indices(z, join), Changed(x, z));
  }

  // --- The first assignment goes round the groups ---

  lemma DivNext(i: nat, k: nat)
    requires k > 0
    ensures if i % k + 1 < k then (i + 1) / k == i / k && (i + 1) % k == i % k + 1
            else (i + 1) / k == i / k + 1 && (i + 1) % k == 0
  {
    var q, r := i / k, i % k;
    assert i == q * k + r;
    if r + 1 < k {
      DivIs(i + 1, k, q, r + 1);
    } else {
      assert (q + 1) * k == q * k + k;
      DivIs(i + 1, k, q + 1, 0);
    }
  }

  lemma DivIs(i: nat, k: nat, q: nat, r: nat)
    requires 0 <= r < k && i == q * k + r
    ensures i / k == q && i % k == r
  {
    var p, m := i / k, i % k;
    assert i == p * k + m && 0 <= m < k;
    if p < q {
      TimesGrows(p, q, k);
    } else if p > q {
      TimesGrows(q, p, k);
    }
  }

  lemma TimesGrows(a: nat, b: nat, k: nat)
    requires a < b
    ensures a * k + k <= b * k
  {
    assert b * k == (a + 1) * k + (b - a - 1) * k;
  }

  lemma LoadAfter(x: Shards, i: nat, g: Gid, h: Gid)
    requires i < |x| && x[i] != h
    ensures Load(x[i := g], h) == Load(x, h) + if g == h then 1 else 0
  {
    assert x[i := g] == x[..i] + [g] + x[i + 1..] && x == x[..i] + [x[i]] + x[i + 1..];
  }

  lemma TurnLoads(x: Shards, gs: seq<Gid>, i: nat, j: nat)
    requires InTurn(x, gs, i) && i < |x| && Ascending(gs) && j < |gs|
    ensures Load(x[i := gs[i % |gs|]], gs[j]) == (i + 1) / |gs| + if j < (i + 1) % |gs| then 1 else 0
  {
    assert gs[j] in gs;
    DivNext(i, |gs|);
    LoadAfter(x, i, gs[i % |gs|], gs[j]);
  }

  /** The first i shards have been given to the groups in turn, in ascending order; the others are unassigned. */
  ghost predicate InTurn(x: Shards, gs: seq<Gid>, i: nat) {
    && gs != [] && i <= |x| && 0 !in gs
    && (forall s :: 0 <= s < i ==> x[s] == gs[s % |gs|])
    && (forall s :: i <= s < |x| ==> x[s] == 0)
    && forall j :: 0 <= j < |gs| ==> Load(x, gs[j]) == i / |gs| + if j < i % |gs| then 1 else 0
  }

  lemma NextInTurn(x: Shards, gs: seq<Gid>, i: nat)
    requires InTurn(x, gs, i) && i < |x| && Ascending(gs)
    ensures InTurn(x[i := gs[i % |gs|]], gs, i + 1)
  {
    var y := x[i := gs[i % |gs|]];
    forall j: nat | j < |gs| ensures Load(y, gs[j]) == (i + 1) / |gs| + if j < (i + 1) % |gs| then 1 else 0 {
      TurnLoads(x, gs, i, j);
    }
  }

  lemma LeastInTurn(x: Shards, gs: seq<Gid>, gids: set<Gid>, i: nat)
    requires InTurn(x, gs, i) && Ascending(gs) && gids == (set g | g in gs) && gids != {}
    ensures Least(x, gids) == gs[i % |gs|]
  {
    var g := gs[i % |gs|];
    assert g in gids;
    forall h | h in gids ensures Lighter(x, g, h) {
      var j :| 0 <= j < |gs| && gs[j] == h;
    }
    LeastIs(x, gids, g);
  }

  lemma {:induction false} AssignInTurn(x: Shards, gs: seq<Gid>, gids: set<Gid>, i: nat)
    requires InTurn(x, gs, i) && Ascending(gs) && gids == (set g | g in gs) && gids != {}
    ensures InTurn(AssignFrom(x, gids, i), gs, |x|)
    decreases |x| - i
  {
    if i < |x| {
      assert x[i] !in gids;
      LeastInTurn(x, gs, gids, i);
      NextInTurn(x, gs, i);
      AssignInTurn(x[i := gs[i % |gs|]], gs, gids, i + 1);
    }
  }

  /** Rebalancing unassigned shards deals them out to the groups in turn, in ascending order of their gids. */
  lemma FirstAssignment(n: nat, gs: seq<Gid>, gids: set<Gid>, s: nat)
    requires gs != [] && 0 !in gs && Ascending(gs) && gids == (set g | g in gs) && s < n
    ensures Rebalanced(seq(n, _ => 0), gids)[s] == gs[s % |gs|]
  {
    var x: Shards := seq(n, _ => 0);
    assert gs[0] in gids;
    forall j | 0 <= j < |gs| ensures Load(x, gs[j]) == 0 {
      assert gs[j] in gs && gs[j] !in x;
    }
    AssignInTurn(x, gs, gids, 0);
    var y := AssignFrom(x, gids, 0);
    forall g, h | g in gids && h in gids ensures Load(y, g) <= Load(y, h) + 1 {
      var i :| 0 <= i < |gs| && gs[i] == g;
      var j :| 0 <= j < |gs| && gs[j] == h;
    }
    SettledIsLevel(y, gids);
  }
}
