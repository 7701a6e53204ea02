/** What it means when a Raft leader raises its commit index: a majority has held its log up to there. */
module RaftCommit {
  import opened RaftServer
  import opened RaftSystem

  /** The server has, at some time, held a log that starts with l. */
  ghost predicate HasHeld(s: State, p: nat, l: seq<Entry>) {
    exists h :: h in s.held && h.server == p && l <= h.log
  }

  /** What a replication message says while its sender is still in its term. */
  ghost predicate ReplicationsRight(s: State) {
    forall e :: e in s.appends && e.task.Replicate? ==>
      && Goal(e.from, e.args.term, e.task.index) in s.goals
      && e.from < |s.servers|
      && (s.servers[e.from].currentTerm == e.args.term ==>
            e.covered <= s.servers[e.from].log && e.task.index < |e.covered|)
  }

  ghost predicate RepliesRight(s: State) {
    forall r :: r in s.replies ==> r.env in s.appends && (r.reply.success ==> HasHeld(s, r.env.to, r.env.covered))
  }

  /** A counted peer held the log of the goal's server up to the goal. */
  ghost predicate AckRight(s: State, k: Ack) {
    && k.goal in s.goals && k.goal.server < |s.servers| && k.peer < |s.servers| && k.peer != k.goal.server
    && var srv := s.servers[k.goal.server];
       (srv.currentTerm == k.goal.term ==>
          0 <= k.goal.index < |srv.log| && HasHeld(s, k.peer, srv.log[..k.goal.index + 1]))
  }

  ghost predicate AcksRight(s: State) {
    forall k :: k in s.acks ==> AckRight(s, k)
  }

  ghost predicate CommitInv(s: State) {
    ReplicationsRight(s) && RepliesRight(s) && AcksRight(s)
  }

  lemma HasHeldGrows(s: State, s': State, p: nat, l: seq<Entry>)
    requires s.held <= s'.held && HasHeld(s, p, l)
    ensures HasHeld(s', p, l)
  {
    var h :| h in s.held && h.server == p && l <= h.log;
    assert h in s'.held;
  }

  /** Every step is steady: leaders that stay in their term only extend their logs. */
  lemma StepSteady(s: State, a: Action)
    requires LogInv(s) && Enabled(s, a) && OneLeader(Do(s, a))
    ensures Steady(s, Do(s, a)) && s.held <= Do(s, a).held && s.goals <= Do(s, a).goals
  {
    match a
    case Deliver(env) => DeliverSteady(s, env);
    case Lead(i, won) => LeadSteady(s, i, won);
    case StartCommand(i, command) => StartSteady(s, i, command);
    case Send(_, _, _, _) =>
    case _ =>
      QuietActions(s, a);
      QuietSteady(s, Do(s, a));
  }

  /** What was known about a goal's log stays known. */
  lemma GoalLogStays(s: State, s': State, g: Goal)
    requires LogInv(s) && Steady(s, s') && g in s.goals && s'.servers[g.server].currentTerm == g.term
    ensures s.servers[g.server].currentTerm == g.term && s.servers[g.server].log <= s'.servers[g.server].log
  {
    var d := Leadership(g.term, g.server);
    assert d in s.leaders && d.term <= s.servers[d.server].currentTerm;
  }

  lemma OldReplications(s: State, s': State, e: Envelope)
    requires LogInv(s) && ReplicationsRight(s) && Steady(s, s') && s.goals <= s'.goals
    requires e in s.appends && e.task.Replicate?
    ensures Goal(e.from, e.args.term, e.task.index) in s'.goals
    ensures s'.servers[e.from].currentTerm == e.args.term ==>
              e.covered <= s'.servers[e.from].log && e.task.index < |e.covered|
  {
    if s'.servers[e.from].currentTerm == e.args.term {
      GoalLogStays(s, s', Goal(e.from, e.args.term, e.task.index));
    }
  }

  lemma OldAcks(s: State, s': State, k: Ack)
    requires LogInv(s) && AcksRight(s) && Steady(s, s') && s.held <= s'.held && k in s.acks
    ensures var srv := s'.servers[k.goal.server];
            srv.currentTerm == k.goal.term ==>
              0 <= k.goal.index < |srv.log| && HasHeld(s', k.peer, srv.log[..k.goal.index + 1])
  {
    var srv, srv' := s.servers[k.goal.server], s'.servers[k.goal.server];
    if srv'.currentTerm == k.goal.term {
      GoalLogStays(s, s', k.goal);
      assert srv'.log[..k.goal.index + 1] == srv.log[..k.goal.index + 1];
      HasHeldGrows(s, s', k.peer, srv.log[..k.goal.index + 1]);
    }
  }

  /** A counted answer: the peer held what the message covered, and that reaches the goal. */
  lemma NewAck(s: State, s': State, r: AppendAnswer)
    requires LogInv(s) && CommitInv(s) && Steady(s, s') && s.held <= s'.held
    requires r in s.replies && r.reply.success && r.env.task.Replicate?
    ensures var g := Goal(r.env.from, r.env.args.term, r.env.task.index); var srv := s'.servers[g.server];
            && g in s.goals
            && (srv.currentTerm == g.term ==> 0 <= g.index < |srv.log| && HasHeld(s', r.env.to, srv.log[..g.index + 1]))
  {
    var e := r.env;
    var g := Goal(e.from, e.args.term, e.task.index);
    assert e in s.appends && g in s.goals;
    if s'.servers[g.server].currentTerm == g.term {
      GoalLogStays(s, s', g);
      assert e.covered <= s.servers[g.server].log && 1 <= g.index < |e.covered|;
      HasHeldGrows(s, s', e.to, e.covered);
      HeldUpTo(s', e.to, e.covered, s'.servers[g.server].log, g.index);
    }
  }

  lemma HeldUpTo(s: State, p: nat, covered: seq<Entry>, log: seq<Entry>, index: nat)
    requires HasHeld(s, p, covered) && covered <= log && index < |covered|
    ensures HasHeld(s, p, log[..index + 1])
  {
    var h :| h in s.held && h.server == p && covered <= h.log;
    assert log[..index + 1] == covered[..index + 1] == h.log[..index + 1];
  }

  lemma WhereAcksComeFrom(s: State, a: Action, k: Ack)
    requires Enabled(s, a) && k in Do(s, a).acks && k !in s.acks
    ensures a.HandleReply? && a.r.reply.success && a.r.env.task.Replicate?
    ensures k == Ack(Goal(a.r.env.from, a.r.env.args.term, a.r.env.task.index), a.r.env.to)
  {
  }

  lemma NewAckRight(s: State, s': State, r: AppendAnswer)
    requires LogInv(s) && CommitInv(s) && Steady(s, s') && s.held <= s'.held && s.goals <= s'.goals
    requires r in s.replies && r.reply.success && r.env.task.Replicate?
    ensures AckRight(s', Ack(Goal(r.env.from, r.env.args.term, r.env.task.index), r.env.to))
  {
    NewAck(s, s', r);
    assert r.env in s.appends;
  }

  lemma OldAckRight(s: State, s': State, k: Ack)
    requires LogInv(s) && AcksRight(s) && Steady(s, s') && s.held <= s'.held && s.goals <= s'.goals && k in s.acks
    ensures AckRight(s', k)
  {
    assert AckRight(s, k);
    OldAcks(s, s', k);
  }

  lemma AcksStep(s: State, a: Action)
    requires LogInv(s) && CommitInv(s) && Enabled(s, a) && OneLeader(Do(s, a))
    ensures AcksRight(Do(s, a))
  {
    StepSteady(s, a);
    forall k | k in Do(s, a).acks ensures AckRight(Do(s, a), k) {
      if k in s.acks {
        OldAckRight(s, Do(s, a), k);
      } else {
        WhereAcksComeFrom(s, a, k);
        NewAckRight(s, Do(s, a), a.r);
      }
    }
  }

  lemma RepliesStep(s: State, a: Action)
    requires LogInv(s) && CommitInv(s) && Enabled(s, a) && OneLeader(Do(s, a))
    ensures RepliesRight(Do(s, a))
  {
    var s' := Do(s, a);
    StepSteady(s, a);
    forall r | r in s'.replies
      ensures r.env in s'.appends && (r.reply.success ==> HasHeld(s', r.env.to, r.env.covered))
    {
      if r in s.replies {
        if r.reply.success {
          HasHeldGrows(s, s', r.env.to, r.env.covered);
        }
      } else {
        DeliveredLog(s, a.env);
        assert Held(a.env.to, s'.servers[a.env.to].log) in s'.held;
      }
    }
  }

  lemma ReplicationsStep(s: State, a: Action)
    requires LogInv(s) && CommitInv(s) && Enabled(s, a) && OneLeader(Do(s, a))
    ensures ReplicationsRight(Do(s, a))
  {
    var s' := Do(s, a);
    StepSteady(s, a);
    forall e | e in s'.appends && e.task.Replicate?
      ensures Goal(e.from, e.args.term, e.task.index) in s'.goals && e.from < |s'.servers|
      ensures s'.servers[e.from].currentTerm == e.args.term ==>
                e.covered <= s'.servers[e.from].log && e.task.index < |e.covered|
    {
      if e in s.appends {
        OldReplications(s, s', e);
      } else {
        assert e == Package(a.i, s.servers[a.i], a.term, a.peer, a.task);
        assert Goal(a.i, a.term, a.task.index) in s.goals;
      }
    }
  }

  lemma {:induction false} CommitInvRun(run: seq<State>, i: nat)
    requires IsRun(run) && OneLeader(End(run)) && i < |run|
    ensures LogInv(run[i]) && OneLeader(run[i]) && CommitInv(run[i])
  {
    LogInvRun(run, i);
    if i > 0 {
      CommitInvRun(run, i - 1);
      assert Next(run[i - 1], run[i - 1 + 1]);
      var a :| Enabled(run[i - 1], a) && run[i] == Do(run[i - 1], a);
      ReplicationsStep(run[i - 1], a);
      RepliesStep(run[i - 1], a);
      AcksStep(run[i - 1], a);
    }
  }

  ghost function Peers(acks: set<Ack>): set<nat> {
    set k | k in acks :: k.peer
  }

  lemma {:induction false} PeersCount(acks: set<Ack>, g: Goal)
    requires forall k :: k in acks ==> k.goal == g
    ensures |Peers(acks)| == |acks|
    decreases |acks|
  {
    if acks == {} {
      assert Peers(acks) == {};
    } else {
      var k :| k in acks;
      PeersCount(acks - {k}, g);
      assert Peers(acks) == Peers(acks - {k}) + {k.peer};
      assert k.peer !in Peers(acks - {k}) by {
        assert forall m :: m in acks - {k} ==> m.peer != k.peer;
      }
    }
  }

  lemma OthersAcked(s: State, g: Goal)
    requires AcksRight(s)
    ensures g.server !in Peers(Acked(s, g))
  {
    assert forall k :: k in Acked(s, g) ==> AckRight(s, k);
  }

  lemma QuorumHeld(s: State, g: Goal, q: nat)
    requires LogInv(s) && CommitInv(s) && g in s.goals && s.servers[g.server].currentTerm == g.term
    requires q == g.server || Ack(g, q) in s.acks
    ensures q < |s.servers| && 1 <= g.index < |s.servers[g.server].log|
    ensures HasHeld(s, q, s.servers[g.server].log[..g.index + 1])
  {
    var srv := s.servers[g.server];
    if q == g.server {
      assert Held(q, srv.log) in s.held && srv.log[..g.index + 1] <= srv.log;
    } else {
      assert AckRight(s, Ack(g, q));
    }
  }

  lemma CommitQuorum(s: State, g: Goal) returns (quorum: set<nat>)
    requires LogInv(s) && CommitInv(s) && Enabled(s, Commit(g))
    ensures 1 <= g.index < |s.servers[g.server].log| && 2 * |quorum| > |s.servers|
    ensures forall q :: q in quorum ==> q < |s.servers| && HasHeld(s, q, s.servers[g.server].log[..g.index + 1])
  {
    quorum := QuorumOf(s, g);
    QuorumHeld(s, g, g.server);
    forall q | q in quorum ensures q < |s.servers| && HasHeld(s, q, s.servers[g.server].log[..g.index + 1]) {
      QuorumHeld(s, g, q);
    }
  }

  lemma QuorumOf(s: State, g: Goal) returns (quorum: set<nat>)
    requires AcksRight(s) && Enabled(s, Commit(g))
    ensures 2 * |quorum| > |s.servers| && forall q :: q in quorum ==> q == g.server || Ack(g, q) in s.acks
  {
    PeersCount(Acked(s, g), g);
    OthersAcked(s, g);
    quorum := Peers(Acked(s, g)) + {g.server};
  }

  /** Commit means majority: in every run where no term has two leaders, when tryToCommit raises the
      commit index of a server to an index, the entry there is of the server's current term, and
      more than half of the servers have held a log identical to the server's up to it. */
  lemma CommitMeansMajority(run: seq<State>, g: Goal) returns (quorum: set<nat>)
    requires IsRun(run) && OneLeader(End(run)) && Enabled(End(run), Commit(g))
    ensures var s := End(run); var srv := s.servers[g.server];
            && Do(s, Commit(g)).servers[g.server].commitIndex == Max(srv.commitIndex, g.index)
            && 1 <= g.index < |srv.log| && srv.log[g.index].term == srv.currentTerm
            && 2 * |quorum| > |s.servers|
            && forall q :: q in quorum ==> q < |s.servers| && HasHeld(s, q, srv.log[..g.index + 1])
  {
    CommitInvRun(run, |run| - 1);
    quorum := CommitQuorum(End(run), g);
  }
}
