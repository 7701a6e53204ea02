/** Raft elections: when votes are unique, and what follows for leaders and logs. */
module RaftElection {
  import Tallies
  import opened RaftServer
  import opened RaftSystem

  /** The server has accepted an append of the term, and with that forgotten any vote it cast in it. */
  ghost predicate HandledAppend(s: State, j: nat, term: int) {
    exists r :: r in s.replies && r.env.to == j && r.env.args.term == term && r.reply.term == term
  }

  ghost predicate Grants(s: State, j: nat, m: VoteRequestMsg) {
    j < |s.servers| && s.servers[j].log != [] && RequestVote(s.servers[j], m.args).reply.granted
  }

  ghost predicate HasVoted(s: State, j: nat, term: int) {
    exists v :: v in s.votes && v.voter == j && v.term == term
  }

  /** A server that has voted in a term, and has handled an append of it since or before, grants no vote in it but
      one it already gave. */
  ghost predicate KeepsVotes(s: State, a: Action) {
    a.HandleVote? && Grants(s, a.j, a.m) && HasVoted(s, a.j, a.m.args.term) && HandledAppend(s, a.j, a.m.args.term) ==>
      Vote(a.j, a.m.args.term, a.m.from) in s.votes
  }

  /** A server turns leader only in the term it won. */
  ghost predicate LeadsWonTerm(s: State, a: Action) {
    a.Lead? && a.i < |s.servers| ==> s.servers[a.i].currentTerm == a.won
  }

  ghost predicate Checked(s: State, a: Action) {
    KeepsVotes(s, a) && LeadsWonTerm(s, a)
  }

  /** A vote of the current term is the one remembered, unless an append has come between. */
  ghost predicate Remembered(s: State, v: Vote) {
    && v.voter < |s.servers|
    && v.term <= s.servers[v.voter].currentTerm
    && (v.term == s.servers[v.voter].currentTerm ==>
          s.servers[v.voter].voteFor == v.candidate || HandledAppend(s, v.voter, v.term))
  }

  ghost predicate OneVote(s: State) {
    forall v, w :: v in s.votes && w in s.votes && v.voter == w.voter && v.term == w.term ==> v == w
  }

  /** What holds of votes in every run. */
  ghost predicate VotesRight(s: State) {
    && (forall i :: 0 <= i < |s.servers| ==> s.servers[i].me == i)
    && (forall v :: v in s.votes ==> Remembered(s, v))
    && (forall m :: m in s.requests ==> m.args.candidate == m.from)
    && (forall v :: v in s.answers && v.reply.granted ==> v.vote in s.votes)
    && s.tally <= s.votes
  }

  lemma RememberedKept(s: State, s': State, v: Vote)
    requires Remembered(s, v) && |s'.servers| == |s.servers| && s.replies <= s'.replies
    requires s.servers[v.voter].currentTerm <= s'.servers[v.voter].currentTerm
    requires s.servers[v.voter].voteFor == v.candidate && s'.servers[v.voter].currentTerm == v.term ==>
               s'.servers[v.voter].voteFor == v.candidate || HandledAppend(s', v.voter, v.term)
    ensures Remembered(s', v)
  {
    if HandledAppend(s, v.voter, v.term) {
      var r :| r in s.replies && r.env.to == v.voter && r.env.args.term == v.term && r.reply.term == v.term;
      assert r in s'.replies;
    }
  }

  lemma DeliverKeepsVotes(s: State, env: Envelope, v: Vote)
    requires VotesRight(s) && Enabled(s, Deliver(env)) && v in s.votes
    ensures Remembered(Do(s, Deliver(env)), v)
  {
    var s' := Do(s, Deliver(env));
    var r := AppendEntries(s.servers[env.to], env.args);
    assert AppendAnswer(env, r.reply) in s'.replies;
    assert Remembered(s, v);
    RememberedKept(s, s', v);
  }

  lemma VotesRightStep(s: State, a: Action)
    requires VotesRight(s) && Enabled(s, a)
    ensures VotesRight(Do(s, a))
  {
    var s' := Do(s, a);
    forall v | v in s'.votes ensures Remembered(s', v) {
      if v in s.votes {
        if a.Deliver? {
          DeliverKeepsVotes(s, a.env, v);
        } else {
          assert Remembered(s, v);
          RememberedKept(s, s', v);
        }
      }
    }
  }

  /** A vote granted to one candidate by a server that has voted for another in that term. */
  ghost predicate SecondVote(s: State, a: Action) {
    && a.HandleVote? && Grants(s, a.j, a.m)
    && exists v :: v in s.votes && v.voter == a.j && v.term == a.m.args.term && v.candidate != a.m.from
  }

  lemma {:induction false} VotesRightRun(run: seq<State>, i: nat)
    requires IsRun(run) && i < |run|
    ensures VotesRight(run[i])
  {
    if i > 0 {
      VotesRightRun(run, i - 1);
      assert Next(run[i - 1], run[i - 1 + 1]);
      var a :| Enabled(run[i - 1], a) && run[i] == Do(run[i - 1], a);
      VotesRightStep(run[i - 1], a);
    }
  }

  /** In every run, a step keeps votes unique if and only if it keeps to the condition on votes: a second vote is
      granted only by a server that has handled an append of the term, and clearing the vote there is the cause. */
  lemma SecondVoteExactly(run: seq<State>, a: Action)
    requires IsRun(run) && OneVote(End(run)) && Enabled(End(run), a)
    ensures OneVote(Do(End(run), a)) <==> !SecondVote(End(run), a)
    ensures OneVote(Do(End(run), a)) <==> KeepsVotes(End(run), a)
  {
    VotesRightRun(run, |run| - 1);
    SecondVoteStep(End(run), a);
  }

  lemma SecondVoteStep(s: State, a: Action)
    requires VotesRight(s) && OneVote(s) && Enabled(s, a)
    ensures OneVote(Do(s, a)) <==> !SecondVote(s, a)
    ensures SecondVote(s, a) ==> HandledAppend(s, a.j, a.m.args.term)
  {
    var s' := Do(s, a);
    if SecondVote(s, a) {
      var v :| v in s.votes && v.voter == a.j && v.term == a.m.args.term && v.candidate != a.m.from;
      assert v in s'.votes && Vote(a.j, a.m.args.term, a.m.from) in s'.votes;
      assert Remembered(s, v);
    } else {
      forall v, w | v in s'.votes && w in s'.votes && v.voter == w.voter && v.term == w.term ensures v == w {
        assert v in s.votes ==> Remembered(s, v);
        assert w in s.votes ==> Remembered(s, w);
      }
    }
  }

  ghost predicate VoteInv(s: State) {
    VotesRight(s) && OneVote(s)
  }

  lemma VoteInvStep(s: State, a: Action)
    requires VoteInv(s) && Enabled(s, a) && KeepsVotes(s, a)
    ensures VoteInv(Do(s, a))
  {
    VotesRightStep(s, a);
    SecondVoteStep(s, a);
    if a.HandleVote? {
      assert Vote(a.j, a.m.args.term, a.m.from) in s.votes ==> !SecondVote(s, a);
    }
  }

  lemma {:induction false} VoteInvRun(run: seq<State>, i: nat)
    requires IsRunBy(run, KeepsVotes) && i < |run|
    ensures VoteInv(run[i])
  {
    if i > 0 {
      VoteInvRun(run, i - 1);
      assert NextBy(run[i - 1], run[i - 1 + 1], KeepsVotes);
      var a :| Enabled(run[i - 1], a) && KeepsVotes(run[i - 1], a) && run[i] == Do(run[i - 1], a);
      VoteInvStep(run[i - 1], a);
    }
  }

  // --- Counting ---

  ghost function Voters(votes: set<Vote>): set<nat> {
    set v | v in votes :: v.voter
  }

  lemma {:induction false} VotersCount(votes: set<Vote>)
    requires forall v, w :: v in votes && w in votes && v.voter == w.voter ==> v == w
    ensures |Voters(votes)| == |votes|
    decreases |votes|
  {
    if votes == {} {
      assert Voters(votes) == {};
    } else {
      var v :| v in votes;
      VotersCount(votes - {v});
      assert Voters(votes) == Voters(votes - {v}) + {v.voter};
      assert v.voter !in Voters(votes - {v}) by {
        assert forall w :: w in votes - {v} ==> w.voter != v.voter;
      }
    }
  }

  lemma {:induction false} BelowCount(a: set<nat>, n: nat)
    requires forall x :: x in a ==> x < n
    ensures |a| <= n
    decreases n
  {
    if n > 0 {
      BelowCount(a - {n - 1}, n - 1);
      if n - 1 in a {
        assert a == (a - {n - 1}) + {n - 1};
      } else {
        assert a - {n - 1} == a;
      }
    } else {
      assert a == {};
    }
  }

  lemma QuorumsShareCandidate(s: State, i: nat, j: nat, term: int)
    requires VoteInv(s)
    requires 2 * |Counted(s, i, term)| > |s.servers| && 2 * |Counted(s, j, term)| > |s.servers|
    ensures i == j
  {
    var a, b := Counted(s, i, term), Counted(s, j, term);
    VotersCount(a);
    VotersCount(b);
    if i != j {
      assert Voters(a) !! Voters(b) by {
        forall v, w | v in a && w in b ensures v.voter != w.voter {
          assert v in s.votes && w in s.votes;
        }
      }
      assert |Voters(a) + Voters(b)| == |Voters(a)| + |Voters(b)|;
      forall x | x in Voters(a) + Voters(b) ensures x < |s.servers| {
        var v: Vote :| v in a + b && v.voter == x;
        assert v in s.votes && Remembered(s, v);
      }
      BelowCount(Voters(a) + Voters(b), |s.servers|);
    }
  }

  /** Election quorum: in every run in which no server, having handled an append of a term, grants a new
      vote in it, no two servers count more than half of the votes for the same term. */
  lemma ElectionQuorum(run: seq<State>, i: nat, j: nat, term: int)
    requires IsRunBy(run, KeepsVotes)
    requires 2 * |Counted(End(run), i, term)| > |End(run).servers|
    requires 2 * |Counted(End(run), j, term)| > |End(run).servers|
    ensures i == j
  {
    VoteInvRun(run, |run| - 1);
    QuorumsShareCandidate(End(run), i, j, term);
  }

  // --- Leaders ---

  ghost predicate LeadersElected(s: State) {
    forall d :: d in s.leaders ==> 2 * |Counted(s, d.server, d.term)| > |s.servers|
  }

  lemma LeadersElectedStep(s: State, a: Action)
    requires LeadersElected(s) && Enabled(s, a) && LeadsWonTerm(s, a)
    ensures LeadersElected(Do(s, a))
  {
    var s' := Do(s, a);
    forall d | d in s'.leaders ensures 2 * |Counted(s', d.server, d.term)| > |s'.servers| {
      Tallies.SubsetSize(Counted(s, d.server, d.term), Counted(s', d.server, d.term));
    }
  }

  lemma {:induction false} CheckedRun(run: seq<State>, i: nat)
    requires IsRunBy(run, Checked) && i < |run|
    ensures LeadersElected(run[i]) && VoteInv(run[i]) && OneLeader(run[i])
  {
    if i > 0 {
      CheckedRun(run, i - 1);
      assert NextBy(run[i - 1], run[i - 1 + 1], Checked);
      var a :| Enabled(run[i - 1], a) && Checked(run[i - 1], a) && run[i] == Do(run[i - 1], a);
      LeadersElectedStep(run[i - 1], a);
      VoteInvStep(run[i - 1], a);
    }
    var s := run[i];
    forall c, d | c in s.leaders && d in s.leaders && c.term == d.term ensures c.server == d.server {
      QuorumsShareCandidate(s, c.server, d.server, c.term);
    }
  }

  /** Election safety and its consequence: if besides no server turns leader in a term other than the
      one it won, then no term has two leaders, and Log Matching holds with no further assumption. */
  lemma ElectionSafety(run: seq<State>, a: seq<Entry>, b: seq<Entry>)
    requires IsRunBy(run, Checked)
    ensures OneLeader(End(run))
    ensures Seen(End(run), a) && Seen(End(run), b) ==> Matching(a, b)
  {
    CheckedRun(run, |run| - 1);
    RunByIsRun(run, Checked);
    if Seen(End(run), a) && Seen(End(run), b) {
      LogMatching(run, a, b);
    }
  }
}
