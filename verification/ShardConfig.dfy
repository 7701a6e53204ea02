/** Shard configurations as the controller edits them in place, and the sequences of
    configurations that joins and leaves produce. */
module ShardConfig {
  import opened ShardBalance

  /** A configuration as a value. */
  datatype Config = Config(num: nat, shards: Shards, groups: map<Gid, seq<string>>)

  /** The initial value of the smallest-load search; loads must stay below it. */
  const SENTINEL := 257

  datatype JoinResult = Joined | Rejoin | SharedServer | NothingJoined
  datatype LeaveResult = Left | NotMember | NothingLeft

  ghost predicate Apart(a: seq<string>, b: seq<string>) {
    forall x :: x in a ==> x !in b
  }

  /** No server belongs to two groups. */
  ghost predicate ServersApart(groups: map<Gid, seq<string>>) {
    forall g, h :: g in groups && h in groups && g != h ==> Apart(groups[g], groups[h])
  }

  /** Each of the groups in joining shares no server with any other group. */
  ghost predicate FreshApart(groups: map<Gid, seq<string>>, joining: set<Gid>) {
    forall g, h :: g in joining && g in groups && h in groups && g != h ==> Apart(groups[h], groups[g])
  }

  /** When a join goes through: something joins, nothing rejoins, and no server is shared. */
  ghost predicate CanJoin(groups: map<Gid, seq<string>>, servers: map<Gid, seq<string>>) {
    && servers != map[]
    && groups.Keys !! servers.Keys
    && FreshApart(groups + servers, servers.Keys)
  }

  ghost predicate Distinct(gids: seq<Gid>) {
    forall i, j :: 0 <= i < j < |gids| ==> gids[i] != gids[j]
  }

  ghost function Elements(gids: seq<Gid>): set<Gid> {
    set g | g in gids
  }

  /** When a leave goes through: something leaves, and every gid is a group, named once. */
  ghost predicate CanLeave(groups: map<Gid, seq<string>>, gids: seq<Gid>) {
    gids != [] && Distinct(gids) && Elements(gids) <= groups.Keys
  }

  ghost function AfterJoin(c: Config, servers: map<Gid, seq<string>>): Config {
    Config(c.num + 1, Rebalanced(c.shards, c.groups.Keys + servers.Keys), c.groups + servers)
  }

  ghost function AfterLeave(c: Config, gids: seq<Gid>): Config {
    Config(c.num + 1, Rebalanced(c.shards, c.groups.Keys - Elements(gids)), c.groups - Elements(gids))
  }

  /** What the scan over the groups knows after some of them. */
  ghost predicate Scanned(x: Shards, gs: seq<Gid>, mg: Gid, mn: int, lg: Gid, ln: int) {
    if gs == [] then mn == -1 && mg == -1 && ln == SENTINEL && lg == -1
    else
      && mg in gs && mn == Load(x, mg) && lg in gs && ln == Load(x, lg)
      && forall j :: 0 <= j < |gs| ==> Heavier(x, mg, gs[j]) && Lighter(x, lg, gs[j])
  }

  lemma ScanNext(x: Shards, gs: seq<Gid>, i: nat, mg: Gid, mn: int, lg: Gid, ln: int)
    requires Ascending(gs) && i < |gs| && |x| < SENTINEL && Scanned(x, gs[..i], mg, mn, lg, ln)
    ensures var g := gs[i]; var n := Load(x, g);
            Scanned(x, gs[..i + 1], if n > mn then g else mg, if n > mn then n else mn,
                    if n < ln then g else lg, if n < ln then n else ln)
  {
    assert Load(x, gs[i]) <= |x| by {
      assert |multiset(x)| == |x|;
    }
    assert gs[..i + 1] == gs[..i] + [gs[i]];
  }

  /** The extremes over a listing of the groups are the most and the least loaded group. */
  lemma ScannedAll(x: Shards, groups: map<Gid, seq<string>>, gs: seq<Gid>, mg: Gid, mn: int, lg: Gid, ln: int)
    requires Elements(gs) == groups.Keys && Scanned(x, gs, mg, mn, lg, ln)
    ensures groups == map[] ==> mg == -1 && mn == -1 && lg == -1 && ln == SENTINEL
    ensures groups != map[] ==>
              && mg == Most(x, groups.Keys) && mn == Load(x, mg) && lg == Least(x, groups.Keys) && ln == Load(x, lg)
  {
    if gs == [] {
      assert groups.Keys == {};
    } else {
      assert gs[0] in Elements(gs);
      forall h | h in groups.Keys ensures Heavier(x, mg, h) && Lighter(x, lg, h) {
        assert h in Elements(gs);
      }
      assert mg in Elements(gs) && lg in Elements(gs);
      MostIs(x, groups.Keys, mg);
      LeastIs(x, groups.Keys, lg);
    }
  }

  lemma {:induction false} HasSmallest(s: set<Gid>)
    requires s != {}
    ensures exists k :: k in s && forall g :: g in s ==> k <= g
    decreases |s|
  {
    Inhabited(s);
    var x :| x in s;
    var rest := s - {x};
    if rest != {} {
      HasSmallest(rest);
      var k :| k in rest && forall g :: g in rest ==> k <= g;
      var m := if x < k then x else k;
      forall g | g in s ensures m <= g {
        assert g == x || g in rest;
      }
      assert m in s;
    } else {
      assert forall g :: g in s ==> g == x || g in rest;
    }
  }

  /** The listing so far: ascending, and below everything that is still to come. */
  ghost predicate Listed(gs: seq<Gid>, todo: set<Gid>, keys: set<Gid>) {
    && todo <= keys && Ascending(gs) && Elements(gs) == keys - todo
    && forall i, g :: 0 <= i < |gs| && g in todo ==> gs[i] < g
  }

  lemma ListNext(gs: seq<Gid>, todo: set<Gid>, keys: set<Gid>, k: Gid)
    requires Listed(gs, todo, keys) && k in todo && forall g :: g in todo ==> k <= g
    ensures Listed(gs + [k], todo - {k}, keys)
  {
    assert Elements(gs + [k]) == Elements(gs) + {k};
  }

  /** The keys of the group map in ascending order. */
  method SortedGids(keys: set<Gid>) returns (gs: seq<Gid>)
    ensures Ascending(gs) && Elements(gs) == keys
  {
    gs := [];
    var todo := keys;
    while todo != {}
      invariant Listed(gs, todo, keys)
      decreases |todo|
    {
      HasSmallest(todo);
      var k :| k in todo && forall g :: g in todo ==> k <= g;
      ListNext(gs, todo, keys, k);
      gs, todo := gs + [k], todo - {k};
    }
  }

  class ShardCfg {
    var num: nat
    var shards: array<Gid>
    var groups: map<Gid, seq<string>>

    function Value(): Config
      reads this, shards
    {
      Config(num, shards[..], groups)
    }

    /** MakeShardConfig, for any number of shards. */
    constructor (nShards: nat)
      ensures fresh(shards)
      ensures Value() == Config(0, seq(nShards, _ => 0), map[])
    {
      num, groups := 0, map[];
      shards := new Gid[nShards](_ => 0);
      new;
      assert shards[..] == seq(nShards, _ => 0);
    }

    method Copy() returns (c: ShardCfg)
      ensures fresh(c) && fresh(c.shards) && c.Value() == Value()
    {
      c := new ShardCfg(shards.Length);
      assert c.shards.Length == |c.Value().shards| == shards.Length;
      c.num := num;
      for s := 0 to shards.Length
        invariant c.shards.Length == shards.Length && fresh(c.shards)
        invariant c.num == num && c.groups == map[] && c.shards[..s] == shards[..s]
      {
        c.shards[s] := shards[s];
      }
      c.groups := groups;
      assert c.shards[..] == shards[..];
    }

    method CountLoads() returns (counts: map<Gid, nat>)
      ensures forall g :: (if g in counts then counts[g] else 0) == Load(shards[..], g)
    {
      counts := map[];
      for i := 0 to shards.Length
        invariant forall g :: (if g in counts then counts[g] else 0) == Load(shards[..i], g)
      {
        var g := shards[i];
        assert shards[..i + 1] == shards[..i] + [g];
        counts := counts[g := (if g in counts then counts[g] else 0) + 1];
      }
      assert shards[..shards.Length] == shards[..];
    }

    /** The most and the least loaded group, the smaller gid winning ties. */
    method Analyze() returns (mg: Gid, mn: int, lg: Gid, ln: int)
      requires shards.Length < SENTINEL
      ensures groups == map[] ==> mg == -1 && mn == -1 && lg == -1 && ln == SENTINEL
      ensures groups != map[] ==>
                && mg == Most(shards[..], groups.Keys) && mn == Load(shards[..], mg)
                && lg == Least(shards[..], groups.Keys) && ln == Load(shards[..], lg)
      ensures forall h :: h in groups ==>
                && (mn > Load(shards[..], h) || (mn == Load(shards[..], h) && mg <= h))
                && (ln < Load(shards[..], h) || (ln == Load(shards[..], h) && lg <= h))
    {
      var counts := CountLoads();
      var gs := SortedGids(groups.Keys);
      mg, mn, lg, ln := ScanGroups(shards[..], counts, gs);
      ScannedAll(shards[..], groups, gs, mg, mn, lg, ln);
    }

    /** The loop over the groups in ascending order. */
    static method ScanGroups(ghost x: Shards, counts: map<Gid, nat>, gs: seq<Gid>)
        returns (mg: Gid, mn: int, lg: Gid, ln: int)
      requires |x| < SENTINEL && Ascending(gs) && forall g :: (if g in counts then counts[g] else 0) == Load(x, g)
      ensures Scanned(x, gs, mg, mn, lg, ln)
    {
      mn, mg, ln, lg := -1, -1, SENTINEL, -1;
      for i := 0 to |gs|
        invariant Scanned(x, gs[..i], mg, mn, lg, ln)
      {
        ScanNext(x, gs, i, mg, mn, lg, ln);
        var g := gs[i];
        var n := if g in counts then counts[g] else 0;
        if n < ln {
          ln, lg := n, g;
        }
        if n > mn {
          mn, mg := n, g;
        }
      }
      assert gs[..|gs|] == gs;
    }

    method Rebalance()
      requires shards.Length < SENTINEL
      modifies shards
      ensures shards[..] == Rebalanced(old(shards[..]), groups.Keys)
    {
      ghost var x := shards[..];
      if |groups| < 1 {
        for s := 0 to shards.Length
          invariant forall t :: 0 <= t < s ==> shards[t] == 0
        {
          shards[s] := 0;
        }
        assert groups.Keys == {};
        assert shards[..] == seq(|x|, _ => 0);
        return;
      }
      assert groups != map[] && groups.Keys != {};
      for s := 0 to shards.Length
        invariant AssignFrom(shards[..], groups.Keys, s) == AssignFrom(x, groups.Keys, 0)
      {
        if shards[s] !in groups {
          var _, _, lg, _ := Analyze();
          ghost var before := shards[..];
          shards[s] := lg;
          assert shards[..] == before[s := lg];
        }
      }
      ghost var y := shards[..];
      while true
        invariant Settle(shards[..], groups.Keys) == Settle(y, groups.Keys)
        decreases Energy(shards[..], groups.Keys)
      {
        var mg, mn, lg, ln := Analyze();
        if mn < ln + 2 {
          break;
        }
        MoveLowersEnergy(shards[..], groups.Keys);
        MoveOne(mg, lg);
      }
    }

    /** Moves the first shard of mg to lg. */
    method MoveOne(mg: Gid, lg: Gid)
      requires Load(shards[..], mg) > 0
      modifies shards
      ensures shards[..] == old(shards[..])[FirstOf(old(shards[..]), mg) := lg]
    {
      ghost var x := shards[..];
      var s := 0;
      while s < shards.Length && shards[s] != mg
        invariant s <= FirstOf(x, mg)
      {
        s := s + 1;
      }
      shards[s] := lg;
      assert shards[..] == x[s := lg];
    }

    /** Whether a server of the list is in a group already. */
    static method SharesServer(groups: map<Gid, seq<string>>, servers: seq<string>) returns (shared: bool)
      ensures shared <==> exists g :: g in groups && !Apart(groups[g], servers)
    {
      var todo := groups.Keys;
      while todo != {}
        invariant todo <= groups.Keys
        invariant forall g :: g in groups && g !in todo ==> Apart(groups[g], servers)
        decreases |todo|
      {
        Inhabited(todo);
        var xgid :| xgid in todo;
        var xservers := groups[xgid];
        for i := 0 to |xservers|
          invariant forall k :: 0 <= k < i ==> xservers[k] !in servers
        {
          for j := 0 to |servers|
            invariant forall k :: 0 <= k < j ==> servers[k] != xservers[i]
          {
            if xservers[i] == servers[j] {
              assert xservers[i] in xservers && xservers[i] in servers;
              return true;
            }
          }
        }
        todo := todo - {xgid};
      }
      return false;
    }

    /** Adds the joining groups one by one, in any order, until one of them is in the way. */
    static method AddGroups(before: map<Gid, seq<string>>, servers: map<Gid, seq<string>>)
        returns (r: JoinResult, groups: map<Gid, seq<string>>)
      ensures r == Joined <==> CanJoin(before, servers)
      ensures r == Joined ==> groups == before + servers
      ensures r != Joined ==> JoinStops(before, servers, groups, r)
    {
      r, groups := AddAll(before, servers);
      if r == Joined {
        if servers.Keys == {} {
          NothingToJoin(before, servers, groups);
          return NothingJoined, groups;
        }
        JoinEnds(before, servers, groups);
      }
    }

    /** The loop over the joining groups, in any order. */
    static method AddAll(before: map<Gid, seq<string>>, servers: map<Gid, seq<string>>)
        returns (r: JoinResult, groups: map<Gid, seq<string>>)
      ensures r == Joined ==> PartlyJoined(before, servers, servers.Keys, groups)
      ensures r != Joined ==> !CanJoin(before, servers) && JoinStops(before, servers, groups, r)
    {
      r, groups := Joined, before;
      var todo := servers.Keys;
      ghost var done: set<Gid> := {};
      NoneJoined(before, servers);
      while todo != {} && r == Joined
        invariant todo !! done && todo + done == servers.Keys
        invariant r == Joined ==> PartlyJoined(before, servers, done, groups)
        invariant r != Joined ==> !CanJoin(before, servers) && JoinStops(before, servers, groups, r)
        decreases |todo|
      {
        Inhabited(todo);
        var gid :| gid in todo;
        r, groups := AddGroup(before, servers, done, groups, gid);
        todo, done := todo - {gid}, done + {gid};
      }
      assert r == Joined ==> done == servers.Keys;
    }

    /** One group: refused if it is there already or shares a server, and added otherwise. */
    static method AddGroup(ghost before: map<Gid, seq<string>>, servers: map<Gid, seq<string>>, ghost done: set<Gid>,
                           groups0: map<Gid, seq<string>>, gid: Gid)
        returns (r: JoinResult, groups: map<Gid, seq<string>>)
      requires PartlyJoined(before, servers, done, groups0) && gid in servers.Keys - done
      ensures r == Joined ==> PartlyJoined(before, servers, done + {gid}, groups)
      ensures r != Joined ==> !CanJoin(before, servers) && JoinStops(before, servers, groups, r)
    {
      groups := groups0;
      if gid in groups {
        RejoinBlocks(before, servers, done, groups, gid);
        return Rejoin, groups;
      }
      var shared := SharesServer(groups, servers[gid]);
      if shared {
        SharedBlocks(before, servers, done, groups, gid);
        return SharedServer, groups;
      }
      JoinGrows(before, servers, done, groups, gid);
      return Joined, groups[gid := servers[gid]];
    }

    method Join(servers: map<Gid, seq<string>>) returns (r: JoinResult)
      modifies this`groups, this`num
      ensures r == Joined <==> CanJoin(old(groups), servers)
      ensures r == Joined ==> groups == old(groups) + servers && num == old(num) + 1
      ensures r != Joined ==> num == old(num) && JoinStops(old(groups), servers, groups, r)
    {
      r, groups := AddGroups(groups, servers);
      if r == Joined {
        num := num + 1;
      }
    }

    method Leave(gids: seq<Gid>) returns (r: LeaveResult)
      modifies this`groups, this`num
      ensures r == Left <==> CanLeave(old(groups), gids)
      ensures r == Left ==> groups == old(groups) - Elements(gids) && num == old(num) + 1
      ensures r != Left ==> num == old(num) && LeaveStops(old(groups), gids, groups, r)
    {
      var changed := false;
      for i := 0 to |gids|
        invariant changed <==> i > 0
        invariant Distinct(gids[..i]) && Elements(gids[..i]) <= old(groups).Keys
        invariant groups == old(groups) - Elements(gids[..i]) && num == old(num)
      {
        assert gids[..i + 1] == gids[..i] + [gids[i]];
        assert Elements(gids[..i + 1]) == Elements(gids[..i]) + {gids[i]};
        if gids[i] !in groups {
          LeaveBlocked(old(groups), gids, i);
          assert LeaveStopsAt(old(groups), gids, i, groups);
          return NotMember;
        }
        groups := groups - {gids[i]};
        changed := true;
      }
      assert gids[..|gids|] == gids;
      if !changed {
        return NothingLeft;
      }
      num := num + 1;
      return Left;
    }

    method JoinBalance(servers: map<Gid, seq<string>>) returns (ok: bool)
      requires shards.Length < SENTINEL
      modifies this`groups, this`num, shards
      ensures ok <==> CanJoin(old(groups), servers)
      ensures ok ==> Value() == AfterJoin(old(Value()), servers)
      ensures !ok ==> num == old(num) && shards[..] == old(shards[..])
      ensures !ok ==> exists r :: JoinStops(old(groups), servers, groups, r)
    {
      var r := Join(servers);
      if r != Joined {
        return false;
      }
      assert groups.Keys == old(groups).Keys + servers.Keys;
      Rebalance();
      return true;
    }

    method LeaveBalance(gids: seq<Gid>) returns (ok: bool)
      requires shards.Length < SENTINEL
      modifies this`groups, this`num, shards
      ensures ok <==> CanLeave(old(groups), gids)
      ensures ok ==> Value() == AfterLeave(old(Value()), gids)
      ensures !ok ==> num == old(num) && shards[..] == old(shards[..])
      ensures !ok ==> exists r :: LeaveStops(old(groups), gids, groups, r)
    {
      var r := Leave(gids);
      if r != Left {
        return false;
      }
      assert groups.Keys == old(groups).Keys - Elements(gids);
      Rebalance();
      return true;
    }
  }

  ghost function Restrict(servers: map<Gid, seq<string>>, keys: set<Gid>): map<Gid, seq<string>> {
    map g | g in keys && g in servers :: servers[g]
  }

  /** The group map while Join runs: the groups in done have been added, without any conflict. */
  ghost predicate PartlyJoined(before: map<Gid, seq<string>>, servers: map<Gid, seq<string>>, done: set<Gid>,
                               groups: map<Gid, seq<string>>) {
    && done <= servers.Keys && before.Keys !! done
    && groups == before + Restrict(servers, done)
    && FreshApart(groups, done)
  }

  /** A join stops at a group that is there already or shares a server; the groups taken before it stay added. */
  ghost predicate StopsAt(before: map<Gid, seq<string>>, servers: map<Gid, seq<string>>, done: set<Gid>, gid: Gid,
                          groups: map<Gid, seq<string>>, r: JoinResult) {
    && done <= servers.Keys && groups == before + Restrict(servers, done) && gid in servers.Keys - done
    && (r == Rejoin ==> gid in groups)
    && (r == SharedServer ==> gid !in groups && exists g :: g in groups && !Apart(groups[g], servers[gid]))
    && (r == Rejoin || r == SharedServer)
  }

  ghost predicate JoinStops(before: map<Gid, seq<string>>, servers: map<Gid, seq<string>>,
                            groups: map<Gid, seq<string>>, r: JoinResult) {
    if r == NothingJoined then servers.Keys == {} && groups == before
    else exists done, gid :: StopsAt(before, servers, done, gid, groups, r)
  }

  /** A leave stops at the first gid that is no group any more; the groups named before it are gone. */
  ghost predicate LeaveStopsAt(before: map<Gid, seq<string>>, gids: seq<Gid>, i: nat, groups: map<Gid, seq<string>>) {
    && i < |gids| && Distinct(gids[..i]) && Elements(gids[..i]) <= before.Keys
    && groups == before - Elements(gids[..i]) && gids[i] !in groups
  }

  ghost predicate LeaveStops(before: map<Gid, seq<string>>, gids: seq<Gid>, groups: map<Gid, seq<string>>,
                             r: LeaveResult) {
    if gids == [] then r == NothingLeft && groups == before
    else r == NotMember && exists i :: LeaveStopsAt(before, gids, i, groups)
  }

  lemma RejoinBlocks(before: map<Gid, seq<string>>, servers: map<Gid, seq<string>>, done: set<Gid>,
                     groups: map<Gid, seq<string>>, gid: Gid)
    requires PartlyJoined(before, servers, done, groups) && gid in servers.Keys - done && gid in groups
    ensures !CanJoin(before, servers) && JoinStops(before, servers, groups, Rejoin)
  {
    assert StopsAt(before, servers, done, gid, groups, Rejoin);
    assert servers != map[];
    assert gid in before.Keys && gid in servers.Keys;
  }

  lemma SharedBlocks(before: map<Gid, seq<string>>, servers: map<Gid, seq<string>>, done: set<Gid>,
                     groups: map<Gid, seq<string>>, gid: Gid)
    requires PartlyJoined(before, servers, done, groups) && gid in servers.Keys - done && gid !in groups
    requires exists g :: g in groups && !Apart(groups[g], servers[gid])
    ensures !CanJoin(before, servers) && JoinStops(before, servers, groups, SharedServer)
  {
    assert StopsAt(before, servers, done, gid, groups, SharedServer);
    assert servers != map[];
    var g :| g in groups && !Apart(groups[g], servers[gid]);
    var all := before + servers;
    if before.Keys !! servers.Keys {
      assert gid in servers.Keys && gid in all && g in all && g != gid && !Apart(all[g], all[gid]);
    }
  }

  lemma JoinGrows(before: map<Gid, seq<string>>, servers: map<Gid, seq<string>>, done: set<Gid>,
                  groups: map<Gid, seq<string>>, gid: Gid)
    requires PartlyJoined(before, servers, done, groups) && gid in servers.Keys - done && gid !in groups
    requires forall g :: g in groups ==> Apart(groups[g], servers[gid])
    ensures PartlyJoined(before, servers, done + {gid}, groups[gid := servers[gid]])
  {
    var groups' := groups[gid := servers[gid]];
    assert groups' == before + Restrict(servers, done + {gid});
    forall g, h | g in done + {gid} && g in groups' && h in groups' && g != h
      ensures Apart(groups'[h], groups'[g])
    {
      if h == gid {
        assert Apart(groups[g], servers[gid]);
      }
    }
  }

  lemma NoneJoined(before: map<Gid, seq<string>>, servers: map<Gid, seq<string>>)
    ensures PartlyJoined(before, servers, {}, before)
  {
    assert Restrict(servers, {}) == map[];
    assert before + map[] == before;
  }

  lemma NothingToJoin(before: map<Gid, seq<string>>, servers: map<Gid, seq<string>>, groups: map<Gid, seq<string>>)
    requires PartlyJoined(before, servers, servers.Keys, groups) && servers.Keys == {}
    ensures !CanJoin(before, servers) && JoinStops(before, servers, groups, NothingJoined)
  {
    assert servers == map[] && Restrict(servers, servers.Keys) == map[];
    assert before + map[] == before;
  }

  lemma JoinEnds(before: map<Gid, seq<string>>, servers: map<Gid, seq<string>>, groups: map<Gid, seq<string>>)
    requires PartlyJoined(before, servers, servers.Keys, groups) && servers.Keys != {}
    ensures groups == before + servers && CanJoin(before, servers)
  {
    assert Restrict(servers, servers.Keys) == servers;
    assert servers != map[];
  }

  lemma LeaveBlocked(groups: map<Gid, seq<string>>, gids: seq<Gid>, i: nat)
    requires i < |gids| && gids[i] !in groups - Elements(gids[..i])
    ensures !CanLeave(groups, gids)
  {
    if gids[i] in Elements(gids[..i]) {
      var j :| 0 <= j < i && gids[..i][j] == gids[i];
      assert gids[j] == gids[i];
    } else {
      assert gids[i] in Elements(gids) && gids[i] !in groups;
    }
  }

  // --- Histories of configurations ---

  datatype Op = JoinOp(servers: map<Gid, seq<string>>) | LeaveOp(gids: seq<Gid>)

  ghost predicate CanApply(c: Config, op: Op) {
    match op
    case JoinOp(servers) => CanJoin(c.groups, servers)
    case LeaveOp(gids) => CanLeave(c.groups, gids)
  }

  ghost function Apply(c: Config, op: Op): Config {
    match op
    case JoinOp(servers) => AfterJoin(c, servers)
    case LeaveOp(gids) => AfterLeave(c, gids)
  }

  /** The configurations that successful joins and leaves produce from the initial one. */
  ghost predicate IsHistory(run: seq<Config>, ops: seq<Op>, nShards: nat) {
    && |run| == |ops| + 1
    && run[0] == Config(0, seq(nShards, _ => 0), map[])
    && forall i :: 0 <= i < |ops| ==> CanApply(run[i], ops[i]) && run[i + 1] == Apply(run[i], ops[i])
  }

  /** Every shard on a live group with level loads, or all unassigned when there is no group. */
  ghost predicate WellAssigned(c: Config) {
    if c.groups == map[] then forall s :: 0 <= s < |c.shards| ==> c.shards[s] == 0
    else AllLive(c.shards, c.groups.Keys) && Level(c.shards, c.groups.Keys)
  }

  lemma ApplyKeeps(c: Config, op: Op)
    requires WellAssigned(c) && ServersApart(c.groups) && CanApply(c, op)
    ensures WellAssigned(Apply(c, op)) && ServersApart(Apply(c, op).groups)
  {
    var c' := Apply(c, op);
    match op
    case JoinOp(servers) =>
      assert c'.groups.Keys == c.groups.Keys + servers.Keys;
      RebalanceBalances(c.shards, c.groups.Keys + servers.Keys);
      JoinKeepsApart(c.groups, servers);
    case LeaveOp(gids) =>
      assert c'.groups.Keys == c.groups.Keys - Elements(gids);
      RebalanceBalances(c.shards, c.groups.Keys - Elements(gids));
  }

  lemma JoinKeepsApart(groups: map<Gid, seq<string>>, servers: map<Gid, seq<string>>)
    requires ServersApart(groups) && CanJoin(groups, servers)
    ensures ServersApart(groups + servers)
  {
    var all := groups + servers;
    forall g, h | g in all && h in all && g != h ensures Apart(all[g], all[h]) {
      if h in servers.Keys {
        assert Apart(all[g], all[h]);
      } else if g in servers.Keys {
        assert Apart(all[h], all[g]);
      }
    }
  }

  /** After any sequence of successful joins and leaves: Num counts them, the shards are well
      assigned, and no server is in two groups. */
  lemma {:induction false} HistoryHolds(run: seq<Config>, ops: seq<Op>, nShards: nat, i: nat)
    requires IsHistory(run, ops, nShards) && i < |run|
    ensures run[i].num == i && |run[i].shards| == nShards
    ensures WellAssigned(run[i]) && ServersApart(run[i].groups)
  {
    if i > 0 {
      HistoryHolds(run, ops, nShards, i - 1);
      assert run[i - 1 + 1] == Apply(run[i - 1], ops[i - 1]);
      ApplyKeeps(run[i - 1], ops[i - 1]);
    }
  }

  /** In a history every step moves as little as it can: a join onto existing groups moves shards only
      to joining groups, and no level assignment is reachable with fewer changes; a leave with a
      survivor moves exactly the shards of the leaving groups. */
  lemma HistoryMovesLittle(run: seq<Config>, ops: seq<Op>, nShards: nat, i: nat)
    requires IsHistory(run, ops, nShards) && i < |ops| && run[i].groups != map[]
    ensures |run[i].shards| == nShards && |run[i + 1].shards| == nShards
    ensures ops[i].JoinOp? ==>
              && (forall s :: 0 <= s < nShards ==>
                    run[i + 1].shards[s] == run[i].shards[s] || run[i + 1].shards[s] in ops[i].servers)
              && (forall z :: |z| == nShards && AllLive(z, run[i + 1].groups.Keys)
                              && Level(z, run[i + 1].groups.Keys) ==>
                    |Changed(run[i].shards, run[i + 1].shards)| <= |Changed(run[i].shards, z)|)
    ensures ops[i].LeaveOp? && run[i + 1].groups != map[] ==>
              forall s :: 0 <= s < nShards ==>
                (run[i + 1].shards[s] == run[i].shards[s] <==> run[i].shards[s] !in ops[i].gids)
  {
    HistoryHolds(run, ops, nShards, i);
    HistoryHolds(run, ops, nShards, i + 1);
    var c, c' := run[i], run[i + 1];
    assert c' == Apply(c, ops[i]);
    match ops[i]
    case JoinOp(servers) =>
      assert c'.groups.Keys == c.groups.Keys + servers.Keys;
      JoinMovesOntoJoiners(c.shards, c.groups.Keys, servers.Keys);
      forall z | |z| == nShards && AllLive(z, c'.groups.Keys) && Level(z, c'.groups.Keys)
        ensures |Changed(c.shards, c'.shards)| <= |Changed(c.shards, z)|
      {
        JoinIsOptimal(c.shards, c.groups.Keys, servers.Keys, z);
      }
    case LeaveOp(gids) =>
      if c'.groups != map[] {
        assert c'.groups.Keys == c.groups.Keys - Elements(gids) && c'.groups.Keys != {};
        LeaveMovesOnlyOrphans(c.shards, c.groups.Keys, c'.groups.Keys);
      }
  }
}
