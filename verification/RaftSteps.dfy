/** Building runs of the cluster step by step: what a few common sequences of actions do to a state. */
module RaftSteps {
  import Tallies
  import opened RaftServer
  import opened RaftSystem
  import opened RaftElection

  lemma Extend(run: seq<State>, ok: (State, Action) -> bool, a: Action) returns (run': seq<State>)
    requires IsRunBy(run, ok) && Enabled(End(run), a) && ok(End(run), a)
    ensures IsRunBy(run', ok) && run'[0] == run[0] && End(run') == Do(End(run), a)
  {
    run' := run + [Do(End(run), a)];
    forall i | 0 <= i < |run'| - 1 ensures NextBy(run'[i], run'[i + 1], ok) {
      if i < |run| - 1 {
        assert NextBy(run[i], run[i + 1], ok);
      }
    }
  }

  /** The message covers the commit index it tells. */
  ghost predicate Covers(e: Envelope) {
    e.args.leaderCommit < |e.covered|
  }

  /** Conditions that concern only votes, new leaders, and messages that do not cover the commit index. */
  ghost predicate Lenient(ok: (State, Action) -> bool) {
    forall s: State, a: Action :: !a.HandleVote? && !a.Lead? && (a.Deliver? ==> Covers(a.env)) ==> ok(s, a)
  }

  ghost predicate AnyDelivery(ok: (State, Action) -> bool) {
    forall s: State, e: Envelope :: ok(s, Deliver(e))
  }

  /** Servers that know who they are and keep the sentinel. */
  ghost predicate Sound(s: State) {
    forall i :: 0 <= i < |s.servers| ==>
      && s.servers[i].me == i && WellIndexed(s.servers[i].log)
      && |s.servers[i].nextIndex| == |s.servers[i].matchIndex| == |s.servers|
  }

  /** What elections leave alone. */
  ghost predicate SameMessages(s: State, s': State) {
    s'.appends == s.appends && s'.replies == s.replies && s'.goals == s.goals && s'.acks == s.acks
  }

  /** A server times out. */
  lemma Stand(run: seq<State>, ok: (State, Action) -> bool, i: nat) returns (run': seq<State>)
    requires IsRunBy(run, ok) && Lenient(ok) && Sound(End(run)) && i < |End(run).servers|
    ensures IsRunBy(run', ok) && run'[0] == run[0] && Sound(End(run'))
    ensures var s, s' := End(run), End(run'); var c := BecomeCandidate(s.servers[i]);
            && s'.servers == s.servers[i := c]
            && s'.requests == s.requests + {VoteRequestMsg(i, VoteRequest(c))}
            && s'.tally == s.tally + {Vote(i, c.currentTerm, i)}
            && s'.leaders == s.leaders && SameMessages(s, s')
  {
    run' := Extend(run, ok, Timeout(i));
  }

  /** The voter can vote as the request asks. */
  ghost predicate WouldVote(s: State, j: nat, args: VoteArgs) {
    && j < |s.servers| && s.servers[j].log != [] && UpToDate(s.servers[j].log, args)
    && (s.servers[j].currentTerm < args.term || (s.servers[j].currentTerm == args.term && s.servers[j].voteFor == -1))
  }

  /** One server votes for a candidate and the candidate counts it. */
  lemma VoteFor(run: seq<State>, ok: (State, Action) -> bool, i: nat, j: nat, args: VoteArgs)
      returns (run': seq<State>)
    requires IsRunBy(run, ok) && Lenient(ok) && Sound(End(run)) && i < |End(run).servers| && i != j
    requires VoteRequestMsg(i, args) in End(run).requests && WouldVote(End(run), j, args)
    requires args.term <= End(run).servers[i].currentTerm && ok(End(run), HandleVote(j, VoteRequestMsg(i, args)))
    ensures IsRunBy(run', ok) && run'[0] == run[0] && Sound(End(run'))
    ensures var s, s' := End(run), End(run');
            && s'.servers == s.servers[j := RequestVote(s.servers[j], args).s]
            && s'.tally == s.tally + {Vote(j, args.term, i)} && s'.requests == s.requests
            && s'.leaders == s.leaders && SameMessages(s, s')
  {
    run' := Extend(run, ok, HandleVote(j, VoteRequestMsg(i, args)));
    var v := VoteAnswer(Vote(j, args.term, i), VoteReply(args.term, true));
    assert v in End(run').answers;
    run' := Extend(run', ok, CountVote(v));
    assert End(run').servers == End(run).servers[j := RequestVote(End(run).servers[j], args).s];
  }

  lemma TwoCounted(s: State, i: nat, j: nat, term: int)
    requires Vote(i, term, i) in s.tally && Vote(j, term, i) in s.tally && i != j
    ensures |Counted(s, i, term)| >= 2
  {
    Tallies.SubsetSize({Vote(i, term, i), Vote(j, term, i)}, Counted(s, i, term));
  }

  /** A candidate in a cluster of three gets one more vote and turns leader. */
  lemma WinWith(run: seq<State>, ok: (State, Action) -> bool, i: nat, j: nat, args: VoteArgs) returns (run': seq<State>)
    requires IsRunBy(run, ok) && Lenient(ok) && Sound(End(run)) && |End(run).servers| == 3 && i < 3 && i != j
    requires VoteRequestMsg(i, args) in End(run).requests && WouldVote(End(run), j, args)
    requires args.term == End(run).servers[i].currentTerm && Vote(i, args.term, i) in End(run).tally
    requires ok(End(run), HandleVote(j, VoteRequestMsg(i, args)))
    requires forall s: State :: i < |s.servers| && s.servers[i].currentTerm == args.term ==> ok(s, Lead(i, args.term))
    ensures IsRunBy(run', ok) && run'[0] == run[0] && Sound(End(run'))
    ensures var s, s' := End(run), End(run');
            && s'.servers == s.servers[j := RequestVote(s.servers[j], args).s][i := BecomeLeader(s.servers[i])]
            && s'.tally == s.tally + {Vote(j, args.term, i)} && s'.requests == s.requests
            && s'.leaders == s.leaders + {Leadership(args.term, i)} && SameMessages(s, s')
  {
    run' := VoteFor(run, ok, i, j, args);
    TwoCounted(End(run'), i, j, args.term);
    run' := Extend(run', ok, Lead(i, args.term));
  }

  /** A leader takes a command. */
  lemma Take(run: seq<State>, ok: (State, Action) -> bool, i: nat, command: string) returns (run': seq<State>)
    requires IsRunBy(run, ok) && Lenient(ok) && Sound(End(run))
    requires i < |End(run).servers| && End(run).servers[i].role == Leader
    ensures IsRunBy(run', ok) && run'[0] == run[0] && Sound(End(run'))
    ensures var s, s' := End(run), End(run'); var srv := s.servers[i];
            && s'.servers == s.servers[i := Start(srv, command)]
            && s'.goals == s.goals + {Goal(i, srv.currentTerm, |srv.log|)}
            && Held(i, Start(srv, command).log) in s'.held && s.held <= s'.held
            && s'.requests == s.requests && s'.tally == s.tally && s'.leaders == s.leaders
            && s'.appends == s.appends && s'.replies == s.replies && s'.acks == s.acks
  {
    run' := Extend(run, ok, StartCommand(i, command));
  }

  /** A leader replicates its whole log to a server whose own log is empty or differs from the
      first entry on; the answer stays in flight. */
  lemma Replicated(run: seq<State>, ok: (State, Action) -> bool, i: nat, j: nat, index: int)
      returns (run': seq<State>, r: AppendAnswer)
    requires IsRunBy(run, ok) && Lenient(ok) && Sound(End(run))
    requires i < |End(run).servers| && j < |End(run).servers| && i != j
    requires var a, b := End(run).servers[i], End(run).servers[j];
             && Goal(i, a.currentTerm, index) in End(run).goals
             && a.nextIndex[j] == 1 && |a.log| > 1 && b.currentTerm <= a.currentTerm && a.commitIndex < |a.log|
             && (|b.log| == 1 || b.log[1].term != a.log[1].term)
    ensures IsRunBy(run', ok) && run'[0] == run[0] && Sound(End(run'))
    ensures var s, s' := End(run), End(run'); var a := s.servers[i];
            && |s'.servers| == |s.servers| && s'.servers == s.servers[j := s'.servers[j]]
            && s'.servers[j].log == a.log && s'.servers[j].currentTerm == a.currentTerm
            && s'.servers[j].role == Follower
            && s'.servers[j].commitIndex == CommitBound(s.servers[j].commitIndex, a.commitIndex, a.log)
            && s.appends <= s'.appends
            && s'.requests == s.requests && s'.tally == s.tally && s'.leaders == s.leaders && s'.goals == s.goals
            && s'.replies == s.replies + {r} && s'.acks == s.acks
            && r.env.from == i && r.env.to == j && r.env.task == Replicate(index) && r.reply.success
            && r.env.args.term == a.currentTerm
  {
    var a := End(run).servers[i];
    var b := End(run).servers[j];
    var env := Package(i, a, a.currentTerm, j, Replicate(index));
    assert env.args.entries == a.log[1..];
    ScanFinds(b.log, |b.log|, 0, 0);
    run' := Extend(run, ok, Send(i, a.currentTerm, j, Replicate(index)));
    var h := AppendEntries(b, env.args);
    assert h.s.log == a.log;
    r := AppendAnswer(env, h.reply);
    run' := Extend(run', ok, Deliver(env));
  }

  /** A heartbeat cut right behind the sentinel: the receiver enters its term without a vote, keeps its log, and
      follows the sender's commit index as far as its own log goes. */
  lemma HeartbeatTo(run: seq<State>, ok: (State, Action) -> bool, i: nat, j: nat, term: int) returns (run': seq<State>)
    requires IsRunBy(run, ok) && Lenient(ok) && AnyDelivery(ok) && Sound(End(run))
    requires i < |End(run).servers| && j < |End(run).servers| && i != j
    requires HeartbeatTerm(End(run), i, term) && End(run).servers[i].nextIndex[j] == 1
    requires End(run).servers[j].currentTerm <= term
    ensures IsRunBy(run', ok) && run'[0] == run[0] && Sound(End(run'))
    ensures var s, s' := End(run), End(run'); var b := s.servers[j];
            && s'.servers == s.servers[j := StepDown(b, term).(
                                 commitIndex := CommitBound(b.commitIndex, s.servers[i].commitIndex, b.log))]
            && s'.requests == s.requests && s'.tally == s.tally && s'.leaders == s.leaders && s'.goals == s.goals
            && s'.acks == s.acks
  {
    var a := End(run).servers[i];
    var b := End(run).servers[j];
    var env := Package(i, a, term, j, Heartbeat);
    assert env.args.entries == [];
    ScanFinds(b.log, |b.log|, 0, 0);
    run' := Extend(run, ok, Send(i, term, j, Heartbeat));
    run' := Extend(run', ok, Deliver(env));
  }
}
