/** For which clusters the election properties hold in every run: none with more than one server. */
module RaftElectionExact {
  import Tallies
  import opened RaftServer
  import opened RaftSystem
  import opened RaftElection
  import opened RaftSteps

  ghost predicate Quorum(s: State, i: nat, term: int) {
    i < |s.servers| && 2 * |Counted(s, i, term)| > |s.servers|
  }

  ghost predicate OneQuorum(s: State) {
    forall i: nat, j: nat, term: int ::
      Quorum(s, i, term) && Quorum(s, j, term) ==> i == j
  }

  /** Nothing has been written or committed. */
  ghost predicate Blank(s: State) {
    Sound(s) && forall i :: 0 <= i < |s.servers| ==> s.servers[i].log == [SENTINEL] && s.servers[i].commitIndex == 0
  }

  /** The server stands in the term and has voted for itself. */
  ghost predicate Standing(s: State, i: nat, term: int) {
    && Blank(s) && i < |s.servers| && s.servers[i].currentTerm == term
    && VoteRequestMsg(i, VoteArgs(term, i, 0, 0)) in s.requests && Vote(i, term, i) in s.tally
  }

  /** The server has led before, so a heartbeat of its may carry the term. */
  ghost predicate CanClear(s: State, i: nat, term: int) {
    HeartbeatTerm(s, i, term) && forall p :: 0 <= p < |s.servers[i].nextIndex| ==> s.servers[i].nextIndex[p] == 1
  }

  /** A voter can be won in the term: it is behind, or a heartbeat makes it forget its vote. */
  ghost predicate CanAsk(s: State, i: nat, j: nat, term: int) {
    && Standing(s, i, term) && j < |s.servers| && j != i
    && (s.servers[j].currentTerm < term || (s.servers[j].currentTerm == term && CanClear(s, i, term)))
  }

  ghost predicate OnlyMoves(s: State, s': State, j: nat, term: int) {
    && |s'.servers| == |s.servers| && j < |s.servers|
    && s'.servers == s.servers[j := s'.servers[j]]
    && s'.servers[j].currentTerm == term && s'.servers[j].nextIndex == s.servers[j].nextIndex
    && s'.requests == s.requests && s'.leaders == s.leaders && s.tally <= s'.tally
  }

  /** One more server is won. */
  lemma Ask(run: seq<State>, i: nat, j: nat, term: int) returns (run': seq<State>)
    requires IsRunBy(run, LeadsWonTerm) && CanAsk(End(run), i, j, term)
    ensures IsRunBy(run', LeadsWonTerm) && run'[0] == run[0] && Standing(End(run'), i, term)
    ensures OnlyMoves(End(run), End(run'), j, term) && Vote(j, term, i) in End(run').tally
  {
    run' := run;
    if End(run).servers[j].currentTerm == term {
      run' := HeartbeatTo(run, LeadsWonTerm, i, j, term);
    }
    run' := VoteFor(run', LeadsWonTerm, i, j, VoteArgs(term, i, 0, 0));
  }

  ghost predicate Polled(s: State, s': State, i: nat, term: int, k: nat) {
    && |s'.servers| == |s.servers| && i < |s.servers| && s'.servers[i] == s.servers[i]
    && (forall p :: 0 <= p < |s.servers| ==>
          && s'.servers[p].nextIndex == s.servers[p].nextIndex
          && s'.servers[p].currentTerm == if p < k && p != i then term else s.servers[p].currentTerm)
    && s'.requests == s.requests && s'.leaders == s.leaders && s.tally <= s'.tally
    && (forall p: nat :: p < k ==> Vote(p, term, i) in s'.tally)
  }

  /** The first k servers are won. */
  lemma {:induction false} Canvass(run: seq<State>, i: nat, term: int, k: nat) returns (run': seq<State>)
    requires IsRunBy(run, LeadsWonTerm) && Standing(End(run), i, term) && k <= |End(run).servers|
    requires forall j: nat :: j < |End(run).servers| && j != i ==> CanAsk(End(run), i, j, term)
    ensures IsRunBy(run', LeadsWonTerm) && run'[0] == run[0] && Standing(End(run'), i, term)
    ensures Polled(End(run), End(run'), i, term, k)
    decreases k
  {
    if k == 0 {
      run' := run;
    } else {
      run' := Canvass(run, i, term, k - 1);
      if k - 1 != i {
        assert CanAsk(End(run), i, k - 1, term);
        run' := Ask(run', i, k - 1, term);
      }
    }
  }

  ghost function VotesOf(n: nat, term: int, i: nat): set<Vote> {
    set p: nat | p < n :: Vote(p, term, i)
  }

  lemma {:induction false} VotesOfCount(n: nat, term: int, i: nat)
    ensures |VotesOf(n, term, i)| == n
  {
    if n > 0 {
      VotesOfCount(n - 1, term, i);
      assert VotesOf(n, term, i) == VotesOf(n - 1, term, i) + {Vote(n - 1, term, i)};
    }
  }

  lemma AllVoted(s: State, i: nat, term: int)
    requires forall p: nat :: p < |s.servers| ==> Vote(p, term, i) in s.tally
    ensures |Counted(s, i, term)| >= |s.servers|
    ensures i < |s.servers| ==> Quorum(s, i, term)
  {
    VotesOfCount(|s.servers|, term, i);
    Tallies.SubsetSize(VotesOf(|s.servers|, term, i), Counted(s, i, term));
  }

  ghost predicate AllIn(s: State, term: int) {
    forall p :: 0 <= p < |s.servers| ==> s.servers[p].currentTerm == term
  }

  /** From a state in which all are in one term, a server wins everybody and leads the next. */
  lemma WinAll(run: seq<State>, i: nat, term: int) returns (run': seq<State>)
    requires IsRunBy(run, LeadsWonTerm) && Blank(End(run)) && AllIn(End(run), term) && i < |End(run).servers|
    ensures IsRunBy(run', LeadsWonTerm) && run'[0] == run[0] && Blank(End(run')) && AllIn(End(run'), term + 1)
    ensures |End(run').servers| == |End(run).servers| && CanClear(End(run'), i, term + 1)
    ensures forall j: nat :: j < |End(run).servers| && j != i ==>
              End(run').servers[j].nextIndex == End(run).servers[j].nextIndex
    ensures End(run).leaders <= End(run').leaders
  {
    run' := Stand(run, LeadsWonTerm, i);
    run' := Canvass(run', i, term + 1, |End(run).servers|);
    AllVoted(End(run'), i, term + 1);
    run' := Extend(run', LeadsWonTerm, Lead(i, term + 1));
    assert Leadership(term + 1, i) in End(run').leaders;
  }

  /** Two servers that have both led stand in the same term. */
  lemma BothStand(s: State) returns (run: seq<State>)
    requires Init(s) && |s.servers| >= 2
    ensures IsRunBy(run, LeadsWonTerm) && run[0] == s && |End(run).servers| == |s.servers|
    ensures Standing(End(run), 0, 3) && CanClear(End(run), 0, 3) && Standing(End(run), 1, 3) && CanClear(End(run), 1, 3)
    ensures forall p :: 0 <= p < |s.servers| ==> End(run).servers[p].currentTerm <= 3
  {
    run := WinAll([s], 0, 0);
    run := WinAll(run, 1, 1);
    assert CanClear(End(run), 0, 2);
    run := Stand(run, LeadsWonTerm, 0);
    run := Stand(run, LeadsWonTerm, 1);
  }

  /** They clear each other's votes with heartbeats they decided to send as leaders: both win every vote. */
  lemma TwoQuorums(s: State) returns (run: seq<State>)
    requires Init(s) && |s.servers| >= 2
    ensures IsRunBy(run, LeadsWonTerm) && run[0] == s && Blank(End(run)) && |End(run).servers| == |s.servers|
    ensures forall p: nat :: p < |s.servers| ==> Vote(p, 3, 0) in End(run).tally && Vote(p, 3, 1) in End(run).tally
    ensures End(run).servers[0].currentTerm == 3 == End(run).servers[1].currentTerm
  {
    run := BothStand(s);
    run := Canvass(run, 0, 3, |s.servers|);
    assert CanClear(End(run), 1, 3);
    run := Canvass(run, 1, 3, |s.servers|);
  }

  /** Both lead the term they won. */
  lemma TwoLeaders(s: State) returns (run: seq<State>)
    requires Init(s) && |s.servers| >= 2
    ensures IsRunBy(run, LeadsWonTerm) && run[0] == s && !OneQuorum(End(run)) && !OneLeader(End(run))
    ensures Blank(End(run)) && |End(run).servers| == |s.servers|
    ensures forall i :: 0 <= i < 2 ==> End(run).servers[i].role == Leader && End(run).servers[i].currentTerm == 3
  {
    run := TwoQuorums(s);
    AllVoted(End(run), 0, 3);
    run := Extend(run, LeadsWonTerm, Lead(0, 3));
    AllVoted(End(run), 1, 3);
    run := Extend(run, LeadsWonTerm, Lead(1, 3));
    AllVoted(End(run), 0, 3);
    AllVoted(End(run), 1, 3);
    assert Leadership(3, 0) in End(run).leaders && Leadership(3, 1) in End(run).leaders;
  }

  /** And take different commands at one position. */
  lemma LogsDiverge(s: State) returns (run: seq<State>)
    requires Init(s) && |s.servers| >= 2
    ensures IsRunBy(run, LeadsWonTerm) && run[0] == s && !LogsMatch(End(run))
  {
    run := TwoLeaders(s);
    run := Take(run, LeadsWonTerm, 0, "x");
    run := Take(run, LeadsWonTerm, 1, "y");
    var a, b := End(run).servers[0].log, End(run).servers[1].log;
    assert a[1].term == b[1].term && a[..2][1] != b[..2][1];
    assert Seen(End(run), a) && Seen(End(run), b);
  }

  /** Log Matching, over all logs held and in flight. */
  ghost predicate LogsMatch(s: State) {
    forall a, b :: Seen(s, a) && Seen(s, b) ==> Matching(a, b)
  }

  /** The property holds at the end of every run from s that keeps to the condition. */
  ghost predicate Always(s: State, ok: (State, Action) -> bool, property: State -> bool) {
    forall run :: IsRunBy(run, ok) && run[0] == s ==> property(End(run))
  }

  lemma {:induction false} LeadersAreServers(run: seq<State>, i: nat)
    requires IsRun(run) && i < |run|
    ensures |run[i].servers| == |run[0].servers| && forall d :: d in run[i].leaders ==> d.server < |run[0].servers|
  {
    if i > 0 {
      LeadersAreServers(run, i - 1);
      assert Next(run[i - 1], run[i - 1 + 1]);
    }
  }

  lemma AloneIsSafe(run: seq<State>)
    requires IsRun(run) && |run[0].servers| <= 1
    ensures OneQuorum(End(run)) && OneLeader(End(run)) && LogsMatch(End(run))
  {
    LeadersAreServers(run, |run| - 1);
    forall a, b | Seen(End(run), a) && Seen(End(run), b) ensures Matching(a, b) {
      LogMatching(run, a, b);
    }
  }

  /** Exactly: with no condition on the runs, or only the one that leaders lead the term they won, a cluster has one
      quorum a term, one leader a term, or matching logs in every run if and only if it has at most
      one server. The failing runs rest on heartbeats that carry the term their sender is in when it reads it, one it
      stands in and does not lead; for replications such a late read of the term is not modelled. */
  lemma ElectionExactly(s: State, ok: (State, Action) -> bool)
    requires Init(s) && forall t: State, a: Action :: LeadsWonTerm(t, a) ==> ok(t, a)
    ensures Always(s, ok, OneQuorum) <==> |s.servers| <= 1
    ensures Always(s, ok, OneLeader) <==> |s.servers| <= 1
    ensures Always(s, ok, LogsMatch) <==> |s.servers| <= 1
  {
    if |s.servers| <= 1 {
      forall run | IsRunBy(run, ok) && run[0] == s
        ensures OneQuorum(End(run)) && OneLeader(End(run)) && LogsMatch(End(run))
      {
        RunByIsRun(run, ok);
        AloneIsSafe(run);
      }
    } else {
      var run := TwoLeaders(s);
      var run' := LogsDiverge(s);
      Widen(run, LeadsWonTerm, ok);
      Widen(run', LeadsWonTerm, ok);
    }
  }

  lemma Widen(run: seq<State>, ok: (State, Action) -> bool, ok': (State, Action) -> bool)
    requires IsRunBy(run, ok) && forall t: State, a: Action :: ok(t, a) ==> ok'(t, a)
    ensures IsRunBy(run, ok')
  {
    forall i | 0 <= i < |run| - 1 ensures NextBy(run[i], run[i + 1], ok') {
      assert NextBy(run[i], run[i + 1], ok);
      var a :| Enabled(run[i], a) && ok(run[i], a) && run[i + 1] == Do(run[i], a);
      assert ok'(run[i], a);
    }
  }
}
