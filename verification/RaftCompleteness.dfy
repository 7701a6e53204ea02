/** Leader Completeness: in runs where votes are kept and leaders lead the term they won, what a leader commits is
    in the log of every leader of a later term, and no two commits contradict each other. */
module RaftCompleteness {
  import opened RaftServer
  import opened RaftSystem
  import opened RaftCommit
  import opened RaftElection
  import opened RaftOrder

  /** A replication goal, the leader's log when it was set, and servers that come to store that log. */
  datatype Commitment = Commitment(g: Goal, log: seq<Entry>, quorum: set<nat>)

  ghost predicate WellFormed(c: Commitment) {
    && 0 <= c.g.term && 1 <= c.g.index == |c.log| - 1 && Last(c.log).term == c.g.term && UpTo(c.log, c.g.term)
  }

  /** The server has answered the goal's replication with a success. */
  ghost predicate Accepted(s: State, g: Goal, q: nat) {
    exists r :: r in s.replies && AnswersGoal(r, g, q)
  }

  ghost predicate AnswersGoal(r: AppendAnswer, g: Goal, q: nat) {
    && r.reply.success && r.env.from == g.server && r.env.to == q && r.env.args.term == g.term
    && r.env.task == Replicate(g.index)
  }

  /** The server has stored the committed log. */
  ghost predicate Has(s: State, c: Commitment, q: nat) {
    (q == c.g.server && c.g in s.goals) || Accepted(s, c.g, q)
  }

  /** A quorum, each of which has stored the log or is still in a term in which it can. */
  ghost predicate Pledged(s: State, c: Commitment) {
    && 2 * |c.quorum| > |s.servers|
    && forall q :: q in c.quorum ==> q < |s.servers| && (Has(s, c, q) || s.servers[q].currentTerm <= c.g.term)
  }

  ghost predicate LedAfter(s: State, c: Commitment, p: nat) {
    exists d :: d in s.leaders && d.server == p && d.term > c.g.term
  }

  ghost predicate NoOther(s: State, term: int, p: nat) {
    forall d :: d in s.leaders && d.term == term ==> d.server == p
  }

  /** A candidate of a later term with a vote from the quorum, and no rival that already leads. */
  ghost predicate Backed(s: State, c: Commitment, p: nat)
    requires p < |s.servers|
  {
    var term := s.servers[p].currentTerm;
    && term > c.g.term && NoOther(s, term, p)
    && exists v :: v in s.votes && v.term == term && v.candidate == p && v.voter in c.quorum
  }

  ghost predicate Owes(s: State, c: Commitment, p: nat)
    requires p < |s.servers|
  {
    Has(s, c, p) || LedAfter(s, c, p) || Backed(s, c, p)
  }

  ghost predicate Holds(s: State, c: Commitment) {
    forall p: nat :: p < |s.servers| && Owes(s, c, p) ==> c.log <= s.servers[p].log
  }

  /** A log with an entry of a later term contains the committed one. */
  ghost predicate LaterHolds(s: State, c: Commitment) {
    forall h :: h in s.held && !UpTo(h.log, c.g.term) ==> c.log <= h.log
  }

  ghost predicate SentRight(s: State, c: Commitment) {
    forall e :: e in s.appends && e.task.Replicate? ==>
      && (e.args.term > c.g.term || (e.args.term == c.g.term && c.g in s.goals) ==>
            e.covered <= c.log || c.log <= e.covered)
      && (e.from == c.g.server && e.args.term == c.g.term && e.task.index == c.g.index ==> c.log <= e.covered)
  }

  ghost predicate RepliesReached(s: State) {
    forall r :: r in s.replies && r.reply.success && r.env.to < |s.servers| ==>
      r.env.args.term <= s.servers[r.env.to].currentTerm
  }

  ghost predicate CompleteInv(s: State, c: Commitment) {
    Holds(s, c) && LaterHolds(s, c) && SentRight(s, c) && RepliesReached(s)
  }

  /** If the step sets the goal, the leader's log is then the committed one. */
  ghost predicate SetRight(s: State, s': State, c: Commitment) {
    c.g !in s.goals && c.g in s'.goals ==> c.g.server < |s'.servers| && s'.servers[c.g.server].log == c.log
  }

  /** What every step of the argument may use of a state. */
  ghost predicate Ready(s: State, c: Commitment) {
    Elected(s) && OrderInv(s) && WellFormed(c) && Pledged(s, c) && CompleteInv(s, c)
  }

  // --- Logs ---

  /** An up-to-date candidate has what its voter has. */
  lemma UpToDateHas(s: State, c: Commitment, v: Held, p: Held, args: VoteArgs)
    requires HeldRight(s) && AllMatch(s) && AllSorted(s) && AllBlocks(s) && LaterHolds(s, c) && WellFormed(c)
    requires v in s.held && p in s.held && c.log <= v.log && p.log != []
    requires UpToDate(v.log, args) && args.lastLogIndex == |p.log| - 1 && args.lastLogTerm == Last(p.log).term
    ensures c.log <= p.log
  {
    var k := c.g.index;
    assert Sorted(v.log) && v.log[k] == c.log[k] && WellIndexed(v.log);
    assert Last(v.log).term >= c.g.term;
    if Last(p.log).term == c.g.term {
      assert SameBlocks(v.log, p.log) && v.log[k].term == p.log[|p.log| - 1].term;
      assert Matching(p.log, v.log) && p.log[k].term == v.log[k].term;
      assert p.log[..k + 1] == v.log[..k + 1] == c.log;
    }
  }

  lemma PrefixHolds(c: Commitment, l: seq<Entry>, h: seq<Entry>)
    requires WellFormed(c) && l <= h && c.log <= h && !UpTo(l, c.g.term)
    ensures c.log <= l
  {
    var k :| 0 <= k < |l| && l[k].term > c.g.term;
    assert l[k] == h[k];
    forall i | 0 <= i < |c.log| ensures h[i].term <= c.g.term {
      assert h[i] == c.log[i];
    }
  }

  /** A server that holds the committed log, in a term in which messages respect it, keeps it. */
  lemma KeepsHolding(s: State, a: Action, c: Commitment, p: nat)
    requires LogInv(s) && SentRight(s, c) && Enabled(s, a) && p < |s.servers| && c.log <= s.servers[p].log
    requires s.servers[p].currentTerm > c.g.term || (s.servers[p].currentTerm == c.g.term && c.g in s.goals)
    ensures |Do(s, a).servers| == |s.servers| && c.log <= Do(s, a).servers[p].log
  {
    ServerStep(s, a, p);
    if a.Deliver? && LogMoves(s, a, p) {
      ReplacedBy(s, a.env);
    }
  }

  lemma ReplacedBy(s: State, env: Envelope)
    requires LogInv(s) && Enabled(s, Deliver(env))
    ensures var log, log' := s.servers[env.to].log, Do(s, Deliver(env)).servers[env.to].log;
            || log' == log
            || (log' == env.covered && !(env.covered <= log) && env.args.term >= s.servers[env.to].currentTerm)
  {
    KnownIsFine(s, env.covered);
    assert Held(env.to, s.servers[env.to].log) in s.held;
    AppendOutcome(s.servers[env.to], env.args, env.covered);
  }

  /** Whoever owes the committed log is in a term in which it keeps it. */
  lemma OwesTerm(s: State, c: Commitment, p: nat)
    requires Elected(s) && RepliesReached(s) && p < |s.servers| && Owes(s, c, p)
    ensures s.servers[p].currentTerm > c.g.term || (s.servers[p].currentTerm == c.g.term && c.g in s.goals)
  {
    if Accepted(s, c.g, p) {
      var r :| r in s.replies && AnswersGoal(r, c.g, p);
      assert r.env in s.appends;
    } else if Has(s, c, p) {
      assert Leadership(c.g.term, p) in s.leaders;
    }
  }

  lemma OwesKept(s: State, a: Action, c: Commitment, p: nat)
    requires Ready(s, c) && Enabled(s, a) && p < |s.servers| && Owes(s, c, p)
    ensures |Do(s, a).servers| == |s.servers| && c.log <= Do(s, a).servers[p].log
  {
    OwesTerm(s, c, p);
    KeepsHolding(s, a, c, p);
  }

  // --- Who comes to owe it ---

  /** Storing it: by setting the goal, or by accepting its replication; both in the goal's term. */
  lemma NewHas(s: State, a: Action, c: Commitment, p: nat)
    requires LogInv(s) && SentRight(s, c) && Enabled(s, a) && p < |s.servers| && !Has(s, c, p) && Has(Do(s, a), c, p)
    requires SetRight(s, Do(s, a), c)
    ensures |Do(s, a).servers| == |s.servers| && c.log <= Do(s, a).servers[p].log
    ensures s.servers[p].currentTerm <= c.g.term
  {
    if Accepted(Do(s, a), c.g, p) {
      var r :| r in Do(s, a).replies && AnswersGoal(r, c.g, p);
      NewReply(s, a, r);
      DeliveredLog(s, r.env);
      assert r.env in s.appends;
    }
  }

  lemma WhereVotesComeFrom(s: State, a: Action, v: Vote)
    requires Enabled(s, a) && v in Do(s, a).votes && v !in s.votes
    ensures (a.Timeout? && v == Vote(a.i, s.servers[a.i].currentTerm + 1, a.i))
         || (a.HandleVote? && Grants(s, a.j, a.m) && v == Vote(a.j, a.m.args.term, a.m.from))
  {
  }

  /** Being voted for by one that stored it. */
  lemma NewlyBacked(s: State, a: Action, c: Commitment, p: nat)
    requires Ready(s, c) && Enabled(s, a) && p < |s.servers|
    requires |Do(s, a).servers| == |s.servers| && Pledged(Do(s, a), c) && Backed(Do(s, a), c, p)
    ensures c.log <= Do(s, a).servers[p].log
  {
    var s' := Do(s, a);
    ServerStep(s, a, p);
    var v :| v in s'.votes && v.term == s'.servers[p].currentTerm && v.candidate == p && v.voter in c.quorum;
    assert NoOther(s, v.term, p) by {
      assert s.leaders <= s'.leaders;
    }
    if v in s.votes {
      VotesBehind(s);
      assert Backed(s, c, p);
      OwesKept(s, a, c, p);
    } else {
      WhereVotesComeFrom(s, a, v);
      if a.Timeout? {
        StandingHas(s, p, c);
        OwesKept(s, a, c, p);
      } else {
        VoterHas(s, a.j, a.m, c);
        VoteLeaves(s, a.j, a.m);
        BackedByVoter(s, a.j, a.m, c);
      }
    }
  }

  lemma StandingHas(s: State, p: nat, c: Commitment)
    requires Enabled(s, Timeout(p)) && Pledged(Do(s, Timeout(p)), c) && p in c.quorum
    requires s.servers[p].currentTerm + 1 > c.g.term
    ensures Has(s, c, p)
  {
    assert Has(Do(s, Timeout(p)), c, p);
  }

  lemma VoteLeaves(s: State, j: nat, m: VoteRequestMsg)
    requires Enabled(s, HandleVote(j, m)) && m.from < |s.servers|
    ensures Do(s, HandleVote(j, m)).servers[m.from] == s.servers[m.from]
  {
  }

  lemma VoterHas(s: State, j: nat, m: VoteRequestMsg, c: Commitment)
    requires Holds(s, c) && Enabled(s, HandleVote(j, m)) && Grants(s, j, m) && j in c.quorum && m.args.term > c.g.term
    requires Pledged(Do(s, HandleVote(j, m)), c)
    ensures c.log <= s.servers[j].log
  {
    VoterReaches(s, j, m);
    assert Has(Do(s, HandleVote(j, m)), c, j);
    assert Has(s, c, j) && Owes(s, c, j);
  }

  lemma VoterReaches(s: State, j: nat, m: VoteRequestMsg)
    requires Enabled(s, HandleVote(j, m)) && Grants(s, j, m)
    ensures |Do(s, HandleVote(j, m)).servers| == |s.servers|
    ensures Do(s, HandleVote(j, m)).servers[j].currentTerm == m.args.term
  {
  }

  lemma BackedByVoter(s: State, j: nat, m: VoteRequestMsg, c: Commitment)
    requires LogInv(s) && OrderInv(s) && WellFormed(c) && Holds(s, c) && LaterHolds(s, c)
    requires Enabled(s, HandleVote(j, m)) && Grants(s, j, m) && m.args.term > c.g.term
    requires c.log <= s.servers[j].log && m.from < |s.servers|
    requires s.servers[m.from].currentTerm == m.args.term && NoOther(s, m.args.term, m.from)
    ensures c.log <= s.servers[m.from].log
  {
    if TermLed(s, m.args.term) {
      var d :| d in s.leaders && d.term == m.args.term;
      assert LedAfter(s, c, m.from) && Owes(s, c, m.from);
    } else {
      assert RequestRight(s, m);
      UpToDateHas(s, c, Held(j, s.servers[j].log), Held(m.from, s.servers[m.from].log), m.args);
    }
  }

  /** Winning a later term: the majority that elects meets the quorum that stored. */
  lemma NewlyLeads(s: State, a: Action, c: Commitment, d: Leadership)
    requires Ready(s, c) && Enabled(s, a) && LeadsWonTerm(s, a) && OneLeader(Do(s, a))
    requires d in Do(s, a).leaders && d !in s.leaders && d.term > c.g.term
    ensures d.server < |s.servers| && |Do(s, a).servers| == |s.servers| && Owes(s, c, d.server)
  {
    NewLeader(s, a, d);
    ServerStep(s, a, d.server);
    var v := CommonVoter(s, c, d.server, d.term);
    assert Backed(s, c, d.server);
  }

  lemma CommonVoter(s: State, c: Commitment, p: nat, term: int) returns (v: Vote)
    requires VotesRight(s) && Pledged(s, c) && 2 * |Counted(s, p, term)| > |s.servers|
    ensures v in s.votes && v.term == term && v.candidate == p && v.voter in c.quorum
  {
    var votes := Counted(s, p, term);
    VotersCount(votes);
    forall w | w in Voters(votes) ensures w < |s.servers| {
      var u: Vote :| u in votes && u.voter == w;
      assert u in s.votes && Remembered(s, u);
    }
    if Voters(votes) !! c.quorum {
      ApartCount(Voters(votes), c.quorum, |s.servers|);
    }
    var w :| w in Voters(votes) && w in c.quorum;
    v :| v in votes && v.voter == w;
  }

  lemma HoldsStep(s: State, a: Action, c: Commitment)
    requires Ready(s, c) && Enabled(s, a) && LeadsWonTerm(s, a) && OneLeader(Do(s, a)) && Pledged(Do(s, a), c)
    requires SetRight(s, Do(s, a), c)
    ensures Holds(Do(s, a), c)
  {
    forall p: nat | p < |Do(s, a).servers| && Owes(Do(s, a), c, p) ensures c.log <= Do(s, a).servers[p].log {
      HoldsOne(s, a, c, p);
    }
  }

  lemma SameServers(s: State, a: Action)
    requires Enabled(s, a)
    ensures |Do(s, a).servers| == |s.servers|
  {
  }

  lemma HoldsOne(s: State, a: Action, c: Commitment, p: nat)
    requires Ready(s, c) && Enabled(s, a) && LeadsWonTerm(s, a) && OneLeader(Do(s, a)) && Pledged(Do(s, a), c)
    requires SetRight(s, Do(s, a), c)
    requires p < |Do(s, a).servers| && Owes(Do(s, a), c, p)
    ensures c.log <= Do(s, a).servers[p].log
  {
    var s' := Do(s, a);
    SameServers(s, a);
    if Owes(s, c, p) {
      OwesKept(s, a, c, p);
    } else if Has(s', c, p) {
      NewHas(s, a, c, p);
    } else if LedAfter(s', c, p) {
      var d :| d in s'.leaders && d.server == p && d.term > c.g.term;
      NewlyLeads(s, a, c, d);
      OwesKept(s, a, c, p);
    } else {
      NewlyBacked(s, a, c, p);
    }
  }

  lemma LaterHoldsStep(s: State, a: Action, c: Commitment)
    requires LogInv(s) && WellFormed(c) && Holds(s, c) && LaterHolds(s, c) && Enabled(s, a)
    ensures LaterHolds(Do(s, a), c)
  {
    forall h | h in Do(s, a).held && !UpTo(h.log, c.g.term) ensures c.log <= h.log {
      if h !in s.held {
        HeldStep(s, a, h);
        if Known(s, h.log) {
          KnownHolds(s, c, h.log);
        } else {
          StartHolds(s, a.i, a.command, c);
        }
      }
    }
  }

  lemma KnownHolds(s: State, c: Commitment, l: seq<Entry>)
    requires WellFormed(c) && LaterHolds(s, c) && Known(s, l) && !UpTo(l, c.g.term)
    ensures c.log <= l
  {
    var f :| f in s.held && l <= f.log;
    var k :| 0 <= k < |l| && l[k].term > c.g.term;
    assert f.log[k] == l[k] && !UpTo(f.log, c.g.term);
    PrefixHolds(c, l, f.log);
  }

  lemma StartHolds(s: State, i: nat, command: string, c: Commitment)
    requires LogInv(s) && Holds(s, c) && LaterHolds(s, c) && Enabled(s, StartCommand(i, command))
    requires !UpTo(Start(s.servers[i], command).log, c.g.term)
    ensures c.log <= Start(s.servers[i], command).log
  {
    var srv := s.servers[i];
    assert Held(i, srv.log) in s.held;
    if UpTo(srv.log, c.g.term) {
      assert Leadership(srv.currentTerm, i) in s.leaders;
      assert LedAfter(s, c, i) && Owes(s, c, i);
    }
  }

  /** What a new replication message covers. */
  lemma NewSent(s: State, i: nat, term: int, peer: nat, task: Task, c: Commitment)
    requires LogInv(s) && OneLeader(s) && Holds(s, c) && Enabled(s, Send(i, term, peer, task)) && task.Replicate?
    requires term > c.g.term || (term == c.g.term && c.g in s.goals) || Goal(i, term, task.index) == c.g
    ensures c.log <= s.servers[i].log
  {
    assert Goal(i, term, task.index) in s.goals && Leadership(term, i) in s.leaders;
    if term > c.g.term {
      assert LedAfter(s, c, i) && Owes(s, c, i);
    } else {
      assert c.g in s.goals && Leadership(c.g.term, c.g.server) in s.leaders;
      assert Has(s, c, i) && Owes(s, c, i);
    }
  }

  /** A goal is set by a leader of its term, for the entry it appends. */
  lemma GoalSet(s: State, a: Action, g: Goal)
    requires LogInv(s) && Enabled(s, a) && g !in s.goals && g in Do(s, a).goals
    ensures g.server < |s.servers| && |Do(s, a).servers| == |s.servers|
    ensures var srv := s.servers[g.server];
            && srv.currentTerm == g.term && Leadership(g.term, g.server) in s.leaders && g.index == |srv.log|
            && exists e: Entry :: e.term == g.term && Do(s, a).servers[g.server].log == srv.log + [e]
  {
    assert a.StartCommand?;
    var srv := s.servers[a.i];
    assert Do(s, a).servers[a.i].log == srv.log + [Entry(srv.currentTerm, |srv.log|, a.command)];
  }

  /** When the goal is set, all earlier replications of the term were cut from what has become its log. */
  lemma SentBefore(s: State, a: Action, c: Commitment, e: Envelope)
    requires LogInv(s) && CommitInv(s) && OneLeader(s) && Enabled(s, a) && c.g !in s.goals && c.g in Do(s, a).goals
    requires SetRight(s, Do(s, a), c)
    requires e in s.appends && e.task.Replicate? && e.args.term == c.g.term
    ensures e.covered <= c.log
  {
    GoalSet(s, a, c.g);
    assert Leadership(e.args.term, e.from) in s.leaders && e.from == c.g.server;
    assert e.covered <= s.servers[e.from].log;
  }

  lemma SentStep(s: State, a: Action, c: Commitment)
    requires Ready(s, c) && Enabled(s, a) && OneLeader(Do(s, a))
    requires SetRight(s, Do(s, a), c)
    ensures SentRight(Do(s, a), c)
  {
    var s' := Do(s, a);
    forall e | e in s'.appends && e.task.Replicate?
      ensures e.args.term > c.g.term || (e.args.term == c.g.term && c.g in s'.goals) ==>
                e.covered <= c.log || c.log <= e.covered
      ensures e.from == c.g.server && e.args.term == c.g.term && e.task.index == c.g.index ==> c.log <= e.covered
    {
      if e !in s.appends {
        SentNow(s, a, e, c);
      } else if e.args.term == c.g.term && c.g in s'.goals && c.g !in s.goals {
        SentBefore(s, a, c, e);
      }
    }
  }

  lemma SentNow(s: State, a: Action, e: Envelope, c: Commitment)
    requires Ready(s, c) && Enabled(s, a) && e in Do(s, a).appends && e !in s.appends && e.task.Replicate?
    ensures e.args.term > c.g.term || (e.args.term == c.g.term && c.g in Do(s, a).goals) ==> c.log <= e.covered
    ensures e.from == c.g.server && e.args.term == c.g.term && e.task.index == c.g.index ==> c.log <= e.covered
  {
    assert a.Send? && e == Package(a.i, s.servers[a.i], a.term, a.peer, a.task);
    if a.term > c.g.term || (a.term == c.g.term && c.g in s.goals) || Goal(a.i, a.term, a.task.index) == c.g {
      NewSent(s, a.i, a.term, a.peer, a.task, c);
    }
  }

  lemma RepliesReachedStep(s: State, a: Action)
    requires LogInv(s) && RepliesReached(s) && Enabled(s, a)
    ensures RepliesReached(Do(s, a))
  {
    var s' := Do(s, a);
    SameServers(s, a);
    forall r | r in s'.replies && r.reply.success && r.env.to < |s'.servers|
      ensures r.env.args.term <= s'.servers[r.env.to].currentTerm
    {
      if r in s.replies {
        ServerStep(s, a, r.env.to);
      } else {
        NewReply(s, a, r);
        AppendEffect(s.servers[r.env.to], r.env.args);
      }
    }
  }

  /** An answer is what the receiver made of the message. */
  lemma NewReply(s: State, a: Action, r: AppendAnswer)
    requires Enabled(s, a) && r in Do(s, a).replies && r !in s.replies
    ensures a == Deliver(r.env) && r.env.to < |s.servers| && |Do(s, a).servers| == |s.servers|
    ensures r.reply == AppendEntries(s.servers[r.env.to], r.env.args).reply
    ensures Do(s, a).servers[r.env.to] == AppendEntries(s.servers[r.env.to], r.env.args).s
    ensures r.reply.success ==> r.env.args.term >= s.servers[r.env.to].currentTerm
  {
  }

  lemma CompleteStep(s: State, a: Action, c: Commitment)
    requires Ready(s, c) && Enabled(s, a) && LeadsWonTerm(s, a) && OneLeader(Do(s, a)) && Pledged(Do(s, a), c)
    requires SetRight(s, Do(s, a), c)
    ensures CompleteInv(Do(s, a), c)
  {
    HoldsStep(s, a, c);
    LaterHoldsStep(s, a, c);
    SentStep(s, a, c);
    RepliesReachedStep(s, a);
  }

  // --- Runs ---

  /** Goals and answers accumulate. */
  lemma {:induction false} Accumulate(run: seq<State>, i: nat, j: nat)
    requires IsRun(run) && i <= j < |run|
    ensures |run[i].servers| == |run[j].servers| && run[i].goals <= run[j].goals && run[i].replies <= run[j].replies
    decreases j - i
  {
    if i < j {
      Accumulate(run, i, j - 1);
      assert Next(run[j - 1], run[j - 1 + 1]);
    }
  }

  lemma HasStays(run: seq<State>, c: Commitment, q: nat, i: nat, j: nat)
    requires IsRun(run) && i <= j < |run| && Has(run[i], c, q)
    ensures Has(run[j], c, q)
  {
    Accumulate(run, i, j);
    if Accepted(run[i], c.g, q) {
      var r :| r in run[i].replies && AnswersGoal(r, c.g, q);
      assert r in run[j].replies;
    }
  }

  /** Before a server has stored the log it is in a term in which it can. */
  lemma {:induction false} CanStill(run: seq<State>, c: Commitment, q: nat, i: nat, x: nat)
    requires IsRunBy(run, Checked) && i <= x < |run| && q < |run[i].servers| && Has(run[x], c, q)
    ensures Has(run[i], c, q) || run[i].servers[q].currentTerm <= c.g.term
    decreases x - i
  {
    if i < x && !Has(run[i], c, q) {
      RunByIsRun(run, Checked);
      OrderRun(run, i);
      assert Next(run[i], run[i + 1]);
      var a :| Enabled(run[i], a) && run[i + 1] == Do(run[i], a);
      ServerStep(run[i], a, q);
      CanStill(run, c, q, i + 1, x);
      if Has(run[i + 1], c, q) {
        StoredInTerm(run[i], a, c, q);
      }
    }
  }

  lemma StoredInTerm(s: State, a: Action, c: Commitment, q: nat)
    requires LogInv(s) && Enabled(s, a) && q < |s.servers| && !Has(s, c, q) && Has(Do(s, a), c, q)
    ensures s.servers[q].currentTerm <= c.g.term
  {
    if Accepted(Do(s, a), c.g, q) {
      var r :| r in Do(s, a).replies && AnswersGoal(r, c.g, q);
      NewReply(s, a, r);
    }
  }

  /** The goal is set once; before that it is not there and after that it is. */
  lemma {:induction false} SetAt(run: seq<State>, g: Goal, x: nat) returns (k: nat)
    requires IsRun(run) && x < |run| && g in run[x].goals
    ensures k < x && g !in run[k].goals && g in run[k + 1].goals
  {
    if g in run[x - 1].goals {
      k := SetAt(run, g, x - 1);
    } else {
      k := x - 1;
    }
  }

  /** Everything counted towards a goal has answered it. */
  lemma {:induction false} AcksAnswered(run: seq<State>, i: nat)
    requires IsRun(run) && i < |run|
    ensures AllAnswered(run[i])
  {
    if i > 0 {
      AcksAnswered(run, i - 1);
      assert Next(run[i - 1], run[i - 1 + 1]);
      AnsweredNext(run[i - 1], run[i]);
    }
  }

  ghost predicate AllAnswered(s: State) {
    forall k :: k in s.acks ==> Accepted(s, k.goal, k.peer)
  }

  lemma AnsweredNext(s: State, s': State)
    requires Next(s, s') && AllAnswered(s)
    ensures AllAnswered(s')
  {
    var a :| Enabled(s, a) && s' == Do(s, a);
    forall k | k in s'.acks ensures Accepted(s', k.goal, k.peer) {
      AckAnswered(s, a, k);
    }
  }

  lemma AckAnswered(s: State, a: Action, k: Ack)
    requires Enabled(s, a) && k in Do(s, a).acks && (k in s.acks ==> Accepted(s, k.goal, k.peer))
    ensures Accepted(Do(s, a), k.goal, k.peer)
  {
    if k in s.acks {
      var r :| r in s.replies && AnswersGoal(r, k.goal, k.peer);
      assert r in Do(s, a).replies;
    } else {
      assert a.r in Do(s, a).replies && AnswersGoal(a.r, k.goal, k.peer);
    }
  }

  /** The commitment a goal stands for, once a majority has answered it. */
  ghost predicate Commits(run: seq<State>, c: Commitment, k: nat, x: nat) {
    && k < x < |run| && WellFormed(c)
    && c.g !in run[k].goals && c.g in run[k + 1].goals
    && c.g.server < |run[k + 1].servers| && run[k + 1].servers[c.g.server].log == c.log
    && 2 * |c.quorum| > |run[x].servers|
    && forall q :: q in c.quorum ==> q < |run[x].servers| && Has(run[x], c, q)
  }

  lemma SetLog(s: State, a: Action, g: Goal, quorum: set<nat>)
    requires LogInv(s) && NoneLater(s) && AllDoomed(s) && Enabled(s, a) && g !in s.goals && g in Do(s, a).goals
    ensures g.server < |Do(s, a).servers| && WellFormed(Commitment(g, Do(s, a).servers[g.server].log, quorum))
  {
    GoalSet(s, a, g);
    assert UpTo(s.servers[g.server].log, g.term) && s.servers[g.server].log != [];
  }

  lemma AckedQuorum(s: State, c: Commitment)
    requires AcksRight(s) && Enabled(s, Commit(c.g)) && AllAnswered(s)
    requires c.quorum == Peers(Acked(s, c.g)) + {c.g.server}
    ensures 2 * |c.quorum| > |s.servers|
    ensures forall q :: q in c.quorum ==> q < |s.servers| && Has(s, c, q)
  {
    PeersCount(Acked(s, c.g), c.g);
    forall q | q in Peers(Acked(s, c.g)) ensures q != c.g.server && q < |s.servers| && Has(s, c, q) {
      AckedPeer(s, c, q);
    }
    assert |Peers(Acked(s, c.g)) + {c.g.server}| == |Peers(Acked(s, c.g))| + 1;
  }

  lemma AckedPeer(s: State, c: Commitment, q: nat)
    requires AcksRight(s) && q in Peers(Acked(s, c.g)) && AllAnswered(s)
    ensures q != c.g.server && q < |s.servers| && Has(s, c, q)
  {
    assert Ack(c.g, q) in s.acks && AckRight(s, Ack(c.g, q));
  }

  lemma CommitCommits(run: seq<State>, x: nat, g: Goal) returns (c: Commitment, k: nat)
    requires IsRunBy(run, Checked) && x < |run| && Enabled(run[x], Commit(g))
    ensures c.g == g && Commits(run, c, k, x)
  {
    RunByIsRun(run, Checked);
    k := SetAt(run, g, x);
    OrderRun(run, k);
    OrderRun(run, x);
    assert Next(run[k], run[k + 1]);
    var a :| Enabled(run[k], a) && run[k + 1] == Do(run[k], a);
    var quorum := Peers(Acked(run[x], g)) + {g.server};
    SetLog(run[k], a, g, quorum);
    c := Commitment(g, run[k + 1].servers[g.server].log, quorum);
    AcksAnswered(run, x);
    AckedQuorum(run[x], c);
  }

  lemma PledgedAt(run: seq<State>, c: Commitment, k: nat, x: nat, i: nat)
    requires IsRunBy(run, Checked) && Commits(run, c, k, x) && i < |run|
    ensures Pledged(run[i], c)
  {
    RunByIsRun(run, Checked);
    if i <= x {
      Accumulate(run, i, x);
    } else {
      Accumulate(run, x, i);
    }
    forall q | q in c.quorum
      ensures q < |run[i].servers| && (Has(run[i], c, q) || run[i].servers[q].currentTerm <= c.g.term)
    {
      if i <= x {
        CanStill(run, c, q, i, x);
      } else {
        HasStays(run, c, q, x, i);
      }
    }
  }

  lemma CompleteNext(run: seq<State>, c: Commitment, k: nat, x: nat, i: nat)
    requires IsRunBy(run, Checked) && Commits(run, c, k, x) && i + 1 < |run| && Ready(run[i], c)
    requires OneLeader(run[i + 1]) && Pledged(run[i + 1], c)
    ensures CompleteInv(run[i + 1], c)
  {
    assert NextBy(run[i], run[i + 1], Checked);
    var a :| Enabled(run[i], a) && Checked(run[i], a) && run[i + 1] == Do(run[i], a);
    RunByIsRun(run, Checked);
    if c.g !in run[i].goals && c.g in run[i + 1].goals {
      SetOnce(run, c, k, x, i);
    }
    CompleteStep(run[i], a, c);
  }

  lemma {:induction false} CompleteRun(run: seq<State>, c: Commitment, k: nat, x: nat, i: nat)
    requires IsRunBy(run, Checked) && Commits(run, c, k, x) && i < |run|
    ensures Ready(run[i], c)
  {
    OrderRun(run, i);
    PledgedAt(run, c, k, x, i);
    if i > 0 {
      CompleteRun(run, c, k, x, i - 1);
      CompleteNext(run, c, k, x, i - 1);
    } else {
      StartsComplete(run[0], c);
    }
  }

  lemma SetOnce(run: seq<State>, c: Commitment, k: nat, x: nat, i: nat)
    requires IsRun(run) && Commits(run, c, k, x) && i + 1 < |run| && c.g !in run[i].goals && c.g in run[i + 1].goals
    ensures i == k
  {
    if i < k {
      Accumulate(run, i + 1, k);
    } else if k < i {
      Accumulate(run, k + 1, i);
    }
  }

  lemma StartsComplete(s: State, c: Commitment)
    requires Init(s) && WellFormed(c) && (forall i :: 0 <= i < |s.servers| ==> s.servers[i].currentTerm == 0)
    ensures CompleteInv(s, c)
  {
  }

  lemma OwesHolds(s: State, c: Commitment, p: nat)
    requires Holds(s, c) && p < |s.servers| && (Has(s, c, p) || LedAfter(s, c, p))
    ensures c.log <= s.servers[p].log
  {
    assert Owes(s, c, p);
  }

  /** What a leader has committed when it raises its commit index to the goal. */
  ghost function Committed(s: State, g: Goal): seq<Entry>
    requires Enabled(s, Commit(g)) && 0 <= g.index < |s.servers[g.server].log|
  {
    s.servers[g.server].log[..g.index + 1]
  }

  lemma CommittedIs(run: seq<State>, x: nat, g: Goal) returns (c: Commitment, k: nat)
    requires IsRunBy(run, Checked) && x < |run| && Enabled(run[x], Commit(g))
    ensures c.g == g && Commits(run, c, k, x)
    ensures 0 <= g.index < |run[x].servers[g.server].log| && Committed(run[x], g) == c.log
  {
    c, k := CommitCommits(run, x, g);
    HoldsAt(run, c, k, x, x);
    OwesHolds(run[x], c, g.server);
  }

  /** What was committed is in the logs of the server that committed it and of all that led later. */
  lemma CommittedStays(run: seq<State>, x: nat, g: Goal, p: nat)
    requires IsRunBy(run, Checked) && x < |run| && Enabled(run[x], Commit(g))
    requires p < |End(run).servers|
    requires p == g.server || exists d :: d in End(run).leaders && d.server == p && d.term > g.term
    ensures 0 <= g.index < |run[x].servers[g.server].log|
    ensures Committed(run[x], g) <= End(run).servers[p].log
  {
    var c, k := CommittedIs(run, x, g);
    StillHeld(run, c, k, x, p);
  }

  lemma StillHeld(run: seq<State>, c: Commitment, k: nat, x: nat, p: nat)
    requires IsRunBy(run, Checked) && Commits(run, c, k, x) && p < |End(run).servers|
    requires p == c.g.server || LedAfter(End(run), c, p)
    ensures c.log <= End(run).servers[p].log
  {
    assert p == c.g.server ==> Has(End(run), c, p) by {
      RunByIsRun(run, Checked);
      Accumulate(run, k + 1, |run| - 1);
    }
    HoldsAt(run, c, k, x, |run| - 1);
    OwesHolds(End(run), c, p);
  }

  lemma HoldsAt(run: seq<State>, c: Commitment, k: nat, x: nat, i: nat)
    requires IsRunBy(run, Checked) && Commits(run, c, k, x) && i < |run|
    ensures Holds(run[i], c)
  {
    CompleteRun(run, c, k, x, i);
  }

  lemma GoalLeads(run: seq<State>, x: nat, g: Goal)
    requires IsRunBy(run, Checked) && x < |run| && g in run[x].goals
    ensures Leadership(g.term, g.server) in End(run).leaders
  {
    RunByIsRun(run, Checked);
    OrderRun(run, x);
    LeadersAccumulate(run, x, |run| - 1);
  }

  lemma LeadersBelow(run: seq<State>)
    requires IsRunBy(run, Checked)
    ensures forall d :: d in End(run).leaders ==> d.server < |End(run).servers|
  {
    OrderRun(run, |run| - 1);
  }

  /** Leader Completeness: in every run in which votes are kept and leaders lead the term they won, once a commit
      index is raised by tryToCommit, every leader of a later term, elected before or after, has in its log
      everything up to it. */
  lemma LeaderCompleteness(run: seq<State>, x: nat, g: Goal, d: Leadership)
    requires IsRunBy(run, Checked) && x < |run| && Enabled(run[x], Commit(g))
    requires d in End(run).leaders && d.term > g.term
    ensures d.server < |End(run).servers| && 0 <= g.index < |run[x].servers[g.server].log|
    ensures Committed(run[x], g) <= End(run).servers[d.server].log
  {
    LeadersBelow(run);
    CommittedStays(run, x, g, d.server);
  }

  /** Two raises of commit indices, at any two times of a run, by any two servers: the committed logs agree. */
  lemma CommitsAgree(run: seq<State>, x: nat, g: Goal, y: nat, h: Goal)
    requires IsRunBy(run, Checked) && x < |run| && y < |run|
    requires Enabled(run[x], Commit(g)) && Enabled(run[y], Commit(h))
    ensures 0 <= g.index < |run[x].servers[g.server].log| && 0 <= h.index < |run[y].servers[h.server].log|
    ensures Committed(run[x], g) <= Committed(run[y], h) || Committed(run[y], h) <= Committed(run[x], g)
  {
    LeadersBelow(run);
    GoalLeads(run, x, g);
    GoalLeads(run, y, h);
    var p := if g.term < h.term then h.server else g.server;
    if g.term == h.term {
      CheckedRun(run, |run| - 1);
    }
    CommittedStays(run, x, g, p);
    CommittedStays(run, y, h, p);
  }
}
