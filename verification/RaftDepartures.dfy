/** Runs in which the servers' departures from the Raft paper show: two leaders of one term, logs that do not
    match, a follower that commits what its leader does not have, a nextIndex past the log. */
module RaftDepartures {
  import Tallies
  import opened RaftServer
  import opened RaftSystem
  import opened RaftElection
  import opened RaftSteps
  import opened RaftReplication

  // --- Three servers: each election condition is needed ---

  /** A heartbeat of the same term lets a voter vote again: two servers win term 1 and both lead it, each in the
      term it won. */
  lemma HeartbeatAllowsTwoLeaders(s: State) returns (run: seq<State>)
    requires Init(s) && |s.servers| == 3
    ensures IsRunBy(run, LeadsWonTerm) && run[0] == s && !OneLeader(End(run))
  {
    run := Stand([s], LeadsWonTerm, 0);
    run := Stand(run, LeadsWonTerm, 2);
    run := WinWith(run, LeadsWonTerm, 0, 1, VoteArgs(1, 0, 0, 0));
    run := HeartbeatTo(run, LeadsWonTerm, 0, 1, 1);
    run := WinWith(run, LeadsWonTerm, 2, 1, VoteArgs(1, 2, 0, 0));
    assert Leadership(1, 0) in End(run).leaders && Leadership(1, 2) in End(run).leaders;
  }

  /** A server that won a term but turns leader only later, in another term, leads that one beside its
      elected leader, although every vote is kept. */
  lemma LateLeaderAllowsTwoLeaders(s: State) returns (run: seq<State>)
    requires Init(s) && |s.servers| == 3
    ensures IsRunBy(run, KeepsVotes) && run[0] == s && !OneLeader(End(run))
  {
    run := Stand([s], KeepsVotes, 0);
    run := VoteFor(run, KeepsVotes, 0, 1, VoteArgs(1, 0, 0, 0));
    run := Stand(run, KeepsVotes, 1);
    run := WinWith(run, KeepsVotes, 1, 0, VoteArgs(2, 1, 0, 0));
    TwoCounted(End(run), 0, 1, 1);
    run := Extend(run, KeepsVotes, Lead(0, 1));
    assert Leadership(2, 1) in End(run).leaders && Leadership(2, 0) in End(run).leaders;
  }

  // --- The follower's commit bound ---

  ghost predicate Is(srv: Server, term: int, log: seq<Entry>) {
    srv.currentTerm == term && srv.log == log
  }

  const X := [SENTINEL, Entry(1, 1, "x")]
  const Z := [SENTINEL, Entry(2, 1, "z")]

  /** Server 0 leads term 1 and keeps its entry to itself. */
  lemma KeepToItself(s: State) returns (run: seq<State>)
    requires Init(s) && |s.servers| == 3
    ensures IsRunBy(run, Checked) && run[0] == s && Sound(End(run)) && |End(run).servers| == 3
    ensures Is(End(run).servers[0], 1, X) && Is(End(run).servers[1], 1, [SENTINEL])
    ensures Is(End(run).servers[2], 0, [SENTINEL]) && End(run).replies == {}
    ensures End(run).servers[0].commitIndex == 0 && End(run).servers[1].commitIndex == 0
  {
    run := Stand([s], Checked, 0);
    run := WinWith(run, Checked, 0, 1, VoteArgs(1, 0, 0, 0));
    run := Take(run, Checked, 0, "x");
  }

  /** Server 1 leads term 2 and commits another entry beside it. */
  lemma CommitBeside(s: State) returns (run: seq<State>)
    requires Init(s) && |s.servers| == 3
    ensures IsRunBy(run, Checked) && run[0] == s && Sound(End(run)) && |End(run).servers| == 3
    ensures Is(End(run).servers[0], 1, X) && End(run).servers[0].commitIndex == 0
    ensures Is(End(run).servers[1], 2, Z) && End(run).servers[1].commitIndex == 1
    ensures Leadership(2, 1) in End(run).leaders && End(run).servers[1].nextIndex[0] == 1
  {
    run := KeepToItself(s);
    run := Stand(run, Checked, 1);
    run := WinWith(run, Checked, 1, 2, VoteArgs(2, 1, 0, 0));
    run := Take(run, Checked, 1, "z");
    var r;
    run, r := Replicated(run, Checked, 1, 2, 1);
    run := CommitWith(run, r);
  }

  /** One answer makes a majority of three. */
  lemma CommitWith(run: seq<State>, r: AppendAnswer) returns (run': seq<State>)
    requires IsRunBy(run, Checked) && Sound(End(run)) && |End(run).servers| == 3 && r in End(run).replies
    requires r.reply.success && r.env.task == Replicate(1) && r.env.from == 1 && r.env.to == 2
    requires End(run).servers[1].currentTerm == r.env.args.term && Goal(1, r.env.args.term, 1) in End(run).goals
    requires End(run).servers[1].commitIndex == 0
    ensures IsRunBy(run', Checked) && run'[0] == run[0] && Sound(End(run')) && |End(run').servers| == 3
    ensures End(run').servers[0] == End(run).servers[0] && End(run').leaders == End(run).leaders
    ensures var a, b := End(run).servers[1], End(run').servers[1];
            b.currentTerm == a.currentTerm && b.log == a.log && b.commitIndex == 1 && b.nextIndex[0] == a.nextIndex[0]
  {
    var g := Goal(1, r.env.args.term, 1);
    run' := Extend(run, Checked, HandleReply(r));
    Tallies.SubsetSize({Ack(g, 2)}, Acked(End(run'), g));
    run' := Extend(run', Checked, Commit(g));
  }

  /** The heartbeat of a duly elected leader makes a follower commit an entry the leader does not have: two
      servers have committed different entries at index 1. */
  lemma HeartbeatCommitsStaleEntry(s: State) returns (run: seq<State>)
    requires Init(s) && |s.servers| == 3
    ensures IsRunBy(run, Checked) && run[0] == s && |End(run).servers| == 3
    ensures var a, b := End(run).servers[0], End(run).servers[1];
            && a.commitIndex == 1 == b.commitIndex && |a.log| == 2 == |b.log| && a.log[1] != b.log[1]
  {
    run := CommitBeside(s);
    run := HeartbeatTo(run, Checked, 1, 0, 2);
  }

  // --- A late success: five servers ---

  lemma ThreeCounted(s: State, i: nat, j: nat, k: nat, term: int)
    requires i != j && i != k && j != k
    requires Vote(i, term, i) in s.tally && Vote(j, term, i) in s.tally && Vote(k, term, i) in s.tally
    ensures |Counted(s, i, term)| >= 3
  {
    Tallies.SubsetSize({Vote(i, term, i), Vote(j, term, i), Vote(k, term, i)}, Counted(s, i, term));
  }

  ghost function Voted(srv: Server, term: int, candidate: int): Server {
    srv.(currentTerm := term, voteFor := candidate, role := Follower)
  }

  /** The voter is behind the candidate's next term and will vote for it. */
  ghost predicate WillElect(s: State, i: nat, j: nat) {
    && i < |s.servers| && s.servers[i].log != [] && i != j && j < |s.servers|
    && s.servers[j].currentTerm <= s.servers[i].currentTerm
    && WouldVote(s, j, VoteRequest(BecomeCandidate(s.servers[i])))
  }

  /** Conditions under which elections by kept votes, of leaders that lead the term they won, go ahead. */
  ghost predicate Elects(ok: (State, Action) -> bool) {
    Lenient(ok) && forall s: State, a: Action :: (a.HandleVote? || a.Lead?) && Checked(s, a) ==> ok(s, a)
  }

  /** In a cluster of five a server times out, gets two votes and leads its new term. */
  lemma Elect(run: seq<State>, ok: (State, Action) -> bool, i: nat, j: nat, k: nat) returns (run': seq<State>)
    requires IsRunBy(run, ok) && Elects(ok) && Sound(End(run)) && |End(run).servers| == 5
    requires j != k && WillElect(End(run), i, j) && WillElect(End(run), i, k)
    requires RepliesUpTo(End(run), End(run).servers[i].currentTerm)
    ensures IsRunBy(run', ok) && run'[0] == run[0] && Sound(End(run'))
    ensures var servers := End(run).servers; var t := servers[i].currentTerm + 1;
            && End(run').servers == servers[i := BecomeLeader(BecomeCandidate(servers[i]))]
                                           [j := Voted(servers[j], t, i)][k := Voted(servers[k], t, i)]
            && End(run').leaders == End(run).leaders + {Leadership(t, i)} && SameMessages(End(run), End(run'))
  {
    var args := VoteRequest(BecomeCandidate(End(run).servers[i]));
    run' := Stand(run, ok, i);
    run' := VoteFor(run', ok, i, j, args);
    run' := VoteFor(run', ok, i, k, args);
    ThreeCounted(End(run'), i, j, k, args.term);
    run' := Extend(run', ok, Lead(i, args.term));
  }

  /** The stale answer: a success for index 2 from server 1 to server 0. */
  ghost predicate InFlight(s: State, r: AppendAnswer) {
    r in s.replies && r.reply.success && r.env.from == 0 && r.env.to == 1 && r.env.task == Replicate(2)
  }

  ghost predicate RepliesUpTo(s: State, term: int) {
    forall r :: r in s.replies ==> r.env.args.term <= term
  }

  lemma TakeTwo(s: State) returns (run: seq<State>)
    requires Init(s) && |s.servers| == 5
    ensures IsRunBy(run, Checked) && run[0] == s && Sound(End(run)) && |End(run).servers| == 5
    ensures End(run).replies == {} && Goal(0, 1, 1) in End(run).goals && Goal(0, 1, 2) in End(run).goals
    ensures End(run).servers[0].commitIndex == 0 && End(run).servers[4].commitIndex == 0
    ensures var servers := End(run).servers;
            && servers[0].currentTerm == 1 && |servers[0].log| == 3 && servers[0].log[1].term == 1
            && servers[0].nextIndex[1] == 1 && Is(servers[1], 1, [SENTINEL])
            && Is(servers[2], 1, [SENTINEL]) && Is(servers[3], 0, [SENTINEL]) && Is(servers[4], 0, [SENTINEL])
  {
    run := Elect([s], Checked, 0, 1, 2);
    run := Take(run, Checked, 0, "x");
    run := Take(run, Checked, 0, "y");
  }

  /** Server 0 leads term 1 and has server 1 store two entries. */
  lemma FirstAct(s: State) returns (run: seq<State>, stale: AppendAnswer)
    requires Init(s) && |s.servers| == 5
    ensures IsRunBy(run, Checked) && run[0] == s && Sound(End(run)) && |End(run).servers| == 5
    ensures InFlight(End(run), stale) && RepliesUpTo(End(run), 1)
    ensures Goal(0, 1, 1) in End(run).goals && End(run).servers[4].commitIndex == 0
    ensures var servers := End(run).servers;
            && servers[0].currentTerm == 1 && |servers[0].log| == 3 && servers[0].log[1].term == 1
            && Is(servers[2], 1, [SENTINEL]) && Is(servers[3], 0, [SENTINEL]) && Is(servers[4], 0, [SENTINEL])
  {
    run := TakeTwo(s);
    run, stale := Replicated(run, Checked, 0, 1, 2);
  }

  /** Server 4, which missed them, leads term 2 and overwrites them at server 0. */
  lemma SecondAct(run: seq<State>, stale: AppendAnswer) returns (run': seq<State>)
    requires IsRunBy(run, Checked) && Sound(End(run)) && |End(run).servers| == 5
    requires InFlight(End(run), stale) && RepliesUpTo(End(run), 1) && End(run).servers[4].commitIndex == 0
    requires var servers := End(run).servers;
             && servers[0].currentTerm == 1 && |servers[0].log| == 3 && servers[0].log[1].term == 1
             && Is(servers[2], 1, [SENTINEL]) && Is(servers[3], 0, [SENTINEL]) && Is(servers[4], 0, [SENTINEL])
    ensures IsRunBy(run', Checked) && run'[0] == run[0] && Sound(End(run')) && |End(run').servers| == 5
    ensures InFlight(End(run'), stale) && RepliesUpTo(End(run'), 2) && End(run).goals <= End(run').goals
    ensures var servers := End(run').servers;
            && Is(servers[0], 2, Z) && servers[0].role == Follower
            && Is(servers[3], 2, [SENTINEL]) && Is(servers[4], 2, Z)
  {
    run' := Stand(run, Checked, 4);
    run' := Elect(run', Checked, 4, 2, 3);
    run' := Take(run', Checked, 4, "z");
    var r;
    run', r := Replicated(run', Checked, 4, 0, 1);
  }

  /** The range of nextIndex breaks although every leader was duly elected: server 0 leads again, in term 3, with a
      shorter log, when the answer to its replication of term 1 arrives. */
  lemma StaleSuccessBreaksRange(s: State) returns (run: seq<State>)
    requires Init(s) && |s.servers| == 5
    ensures IsRunBy(run, Checked) && run[0] == s && LeadersElected(End(run)) && OneLeader(End(run))
    ensures |End(run).servers| == 5 && End(run).servers[0].role == Leader && !InRange(End(run).servers[0])
  {
    var stale;
    run, stale := FirstAct(s);
    run := SecondAct(run, stale);
    run := Elect(run, Checked, 0, 3, 4);
    run := Extend(run, Checked, HandleReply(stale));
    assert End(run).servers[0].nextIndex[1] == 3;
    CheckedRun(run, |run| - 1);
  }

  /** So it is for a sender that is no longer a leader: its other replications of term 1 are still retried, and the
      next attempt would read its log behind the end. */
  lemma DeposedSenderOverruns(s: State) returns (run: seq<State>)
    requires Init(s) && |s.servers| == 5
    ensures IsRunBy(run, Checked) && run[0] == s && |End(run).servers| == 5
    ensures var srv := End(run).servers[0];
            && srv.role != Leader && Goal(0, 1, 1) in End(run).goals
            && |srv.nextIndex| == 5 && srv.nextIndex[1] - 1 >= |srv.log|
  {
    var stale;
    run, stale := FirstAct(s);
    run := SecondAct(run, stale);
    run := Extend(run, Checked, HandleReply(stale));
  }
}
