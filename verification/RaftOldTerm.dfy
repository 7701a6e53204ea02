/** Why a message that raises a commit index must carry its sender's current term: a replication of an earlier term
    passes on what was committed since, to a server that a delayed message can still overrule. */
module RaftOldTerm {
  import Tallies
  import opened RaftServer
  import opened RaftSystem
  import opened RaftElection
  import opened RaftSteps
  import opened RaftDepartures
  import opened RaftCompleteness
  import opened RaftSafety

  /** All that a safe run needs but the terms: elected leaders, kept votes, no delivery astray; besides, every message
      delivered covers the commit index it tells. */
  ghost predicate Careful(s: State, a: Action) {
    Checked(s, a) && StaysOnCourse(s, a) && (a.Deliver? ==> Covers(a.env))
  }

  const A := [SENTINEL, Entry(1, 1, "a")]
  const B := [SENTINEL, Entry(2, 1, "b")]
  const C := [SENTINEL, Entry(1, 1, "a"), Entry(3, 2, "c")]

  ghost predicate Plain(srv: Server, term: int, log: seq<Entry>) {
    srv.currentTerm == term && srv.log == log && srv.commitIndex == 0
  }

  /** A leader's message is refused because the follower's log is empty; the leader steps back. */
  lemma BackOff(run: seq<State>, ok: (State, Action) -> bool, i: nat, j: nat, index: int) returns (run': seq<State>)
    requires IsRunBy(run, ok) && Lenient(ok) && Sound(End(run))
    requires i < |End(run).servers| && j < |End(run).servers| && i != j
    requires var a, b := End(run).servers[i], End(run).servers[j];
             && Goal(i, a.currentTerm, index) in End(run).goals && a.nextIndex[j] == 2 && |a.log| > 1
             && a.commitIndex == 0 && b.log == [SENTINEL] && b.currentTerm <= a.currentTerm
    ensures IsRunBy(run', ok) && run'[0] == run[0] && Sound(End(run'))
    ensures var s, s' := End(run), End(run'); var a, b := s.servers[i], s.servers[j];
            && s'.servers == s.servers[j := StepDown(b, a.currentTerm)][i := a.(nextIndex := a.nextIndex[j := 1])]
            && s.appends <= s'.appends && s'.goals == s.goals && s'.acks == s.acks
  {
    var a := End(run).servers[i];
    var b := End(run).servers[j];
    var env := Package(i, a, a.currentTerm, j, Replicate(index));
    run' := Extend(run, ok, Send(i, a.currentTerm, j, Replicate(index)));
    ScanFinds(b.log, |b.log|, 1, a.log[1].term);
    var h := AppendEntries(b, env.args);
    assert h == Handled(StepDown(b, a.currentTerm), AppendReply(a.currentTerm, false));
    run' := Extend(run', ok, Deliver(env));
    var r := AppendAnswer(env, h.reply);
    assert r in End(run').replies;
    run' := Extend(run', ok, HandleReply(r));
  }

  /** Server 0 leads term 1 and has server 4 store its entry; the goroutine for it stays at work. */
  lemma OldGoal(s: State) returns (run: seq<State>)
    requires Init(s) && |s.servers| == 5
    ensures IsRunBy(run, Careful) && run[0] == s && Sound(End(run)) && |End(run).servers| == 5
    ensures Goal(0, 1, 1) in End(run).goals && RepliesUpTo(End(run), 1)
    ensures var servers := End(run).servers;
            && Plain(servers[0], 1, A) && Plain(servers[1], 0, [SENTINEL]) && Plain(servers[2], 1, [SENTINEL])
            && Plain(servers[3], 1, [SENTINEL]) && Plain(servers[4], 1, A)
  {
    run := Elect([s], Careful, 0, 2, 3);
    run := Take(run, Careful, 0, "a");
    var r;
    run, r := Replicated(run, Careful, 0, 4, 1);
  }

  /** The delayed message: from the leader of term 2, for server 4. */
  ghost predicate Delayed(s: State, e: Envelope) {
    e in s.appends && e.to == 4 && e.args == AppendArgs(2, 1, 0, 0, B[1..], 0) && e.covered == B
  }

  /** Server 1 leads term 2 and sends its entry to server 4; the message is delayed. */
  lemma SendDelayed(run: seq<State>) returns (run': seq<State>, e: Envelope)
    requires IsRunBy(run, Careful) && Sound(End(run)) && |End(run).servers| == 5 && RepliesUpTo(End(run), 1)
    requires var servers := End(run).servers;
             && Plain(servers[0], 1, A) && Plain(servers[1], 0, [SENTINEL]) && Plain(servers[2], 1, [SENTINEL])
             && Plain(servers[3], 1, [SENTINEL]) && Plain(servers[4], 1, A)
    ensures IsRunBy(run', Careful) && run'[0] == run[0] && Sound(End(run')) && |End(run').servers| == 5
    ensures Delayed(End(run'), e) && End(run).goals <= End(run').goals && RepliesUpTo(End(run'), 1)
    ensures var servers := End(run').servers;
            && Plain(servers[0], 1, A) && Plain(servers[2], 2, [SENTINEL])
            && Plain(servers[3], 2, [SENTINEL]) && Plain(servers[4], 1, A)
  {
    run' := Stand(run, Careful, 1);
    run' := Elect(run', Careful, 1, 2, 3);
    run' := Take(run', Careful, 1, "b");
    var srv := End(run').servers[1];
    assert srv.log == B;
    e := Package(1, srv, 2, 4, Replicate(1));
    run' := Extend(run', Careful, Send(1, 2, 4, Replicate(1)));
  }

  /** Server 0 leads term 3 and adds an entry behind its old one. */
  lemma LeadAgain(run: seq<State>, e: Envelope) returns (run': seq<State>)
    requires IsRunBy(run, Careful) && Sound(End(run)) && |End(run).servers| == 5
    requires Delayed(End(run), e) && RepliesUpTo(End(run), 1)
    requires var servers := End(run).servers;
             && Plain(servers[0], 1, A) && Plain(servers[2], 2, [SENTINEL])
             && Plain(servers[3], 2, [SENTINEL]) && Plain(servers[4], 1, A)
    ensures IsRunBy(run', Careful) && run'[0] == run[0] && Sound(End(run')) && |End(run').servers| == 5
    ensures Delayed(End(run'), e) && End(run).goals <= End(run').goals && Goal(0, 3, 2) in End(run').goals
    ensures var servers := End(run').servers;
            && Plain(servers[0], 3, C) && Plain(servers[2], 3, [SENTINEL])
            && Plain(servers[3], 3, [SENTINEL]) && Plain(servers[4], 1, A)
            && servers[0].nextIndex == [2, 2, 2, 2, 2]
  {
    run' := Stand(run, Careful, 0);
    run' := Elect(run', Careful, 0, 2, 3);
    run' := Take(run', Careful, 0, "c");
  }

  /** It steps back to two servers, replicates to them, and commits. */
  lemma CommitBoth(run: seq<State>, e: Envelope) returns (run': seq<State>)
    requires IsRunBy(run, Careful) && Sound(End(run)) && |End(run).servers| == 5
    requires Delayed(End(run), e) && Goal(0, 3, 2) in End(run).goals
    requires var servers := End(run).servers;
             && Plain(servers[0], 3, C) && Plain(servers[2], 3, [SENTINEL])
             && Plain(servers[3], 3, [SENTINEL]) && Plain(servers[4], 1, A)
             && servers[0].nextIndex == [2, 2, 2, 2, 2]
    ensures IsRunBy(run', Careful) && run'[0] == run[0] && Sound(End(run')) && |End(run').servers| == 5
    ensures Delayed(End(run'), e) && End(run).goals <= End(run').goals
    ensures var servers := End(run').servers;
            && Is(servers[0], 3, C) && servers[0].commitIndex == 2 && servers[0].nextIndex[4] == 2
            && Plain(servers[4], 1, A)
  {
    run' := BackOff(run, Careful, 0, 2, 2);
    run' := BackOff(run', Careful, 0, 3, 2);
    var r2, r3;
    run', r2 := Replicated(run', Careful, 0, 2, 2);
    run', r3 := Replicated(run', Careful, 0, 3, 2);
    run' := CountTwo(run', r2, r3);
  }

  /** A server counts an answer to its goal. */
  lemma CountOne(run: seq<State>, r: AppendAnswer, g: Goal, p: nat) returns (run': seq<State>)
    requires IsRunBy(run, Careful) && Sound(End(run)) && |End(run).servers| == 5 && p < 4
    requires AnswersGoal(r, g, p) && r in End(run).replies && g.server == 0
    ensures IsRunBy(run', Careful) && run'[0] == run[0] && Sound(End(run')) && |End(run').servers| == 5
    ensures var s, s' := End(run), End(run'); var srv, srv' := s.servers[0], s'.servers[0];
            && s'.servers == s.servers[0 := srv'] && s'.acks == s.acks + {Ack(g, p)}
            && s'.appends == s.appends && s'.goals == s.goals && s'.replies == s.replies
            && srv'.currentTerm == srv.currentTerm && srv'.log == srv.log && srv'.commitIndex == srv.commitIndex
            && srv'.nextIndex[4] == srv.nextIndex[4]
  {
    run' := Extend(run, Careful, HandleReply(r));
  }

  /** Two answers make a majority of five. */
  lemma CountTwo(run: seq<State>, r2: AppendAnswer, r3: AppendAnswer) returns (run': seq<State>)
    requires IsRunBy(run, Careful) && Sound(End(run)) && |End(run).servers| == 5
    requires AnswersGoal(r2, Goal(0, 3, 2), 2) && AnswersGoal(r3, Goal(0, 3, 2), 3)
    requires r2 in End(run).replies && r3 in End(run).replies && Goal(0, 3, 2) in End(run).goals
    requires Plain(End(run).servers[0], 3, C)
    ensures IsRunBy(run', Careful) && run'[0] == run[0] && Sound(End(run')) && |End(run').servers| == 5
    ensures End(run').appends == End(run).appends && End(run').goals == End(run).goals
    ensures End(run').servers[4] == End(run).servers[4]
    ensures var srv, srv' := End(run).servers[0], End(run').servers[0];
            Is(srv', 3, C) && srv'.commitIndex == 2 && srv'.nextIndex[4] == srv.nextIndex[4]
  {
    var g := Goal(0, 3, 2);
    run' := CountOne(run, r2, g, 2);
    run' := CountOne(run', r3, g, 3);
    Tallies.SubsetSize({Ack(g, 2), Ack(g, 3)}, Acked(End(run'), g));
    run' := Extend(run', Careful, Commit(g));
  }

  /** The goroutine of term 1 now sends the live log and commit index to server 4, under term 1. */
  lemma PassOn(run: seq<State>, e: Envelope) returns (run': seq<State>)
    requires IsRunBy(run, Careful) && Sound(End(run)) && |End(run).servers| == 5
    requires Delayed(End(run), e) && Goal(0, 1, 1) in End(run).goals
    requires var servers := End(run).servers;
             && Is(servers[0], 3, C) && servers[0].commitIndex == 2 && servers[0].nextIndex[4] == 2
             && Plain(servers[4], 1, A)
    ensures IsRunBy(run', Careful) && run'[0] == run[0] && Sound(End(run')) && |End(run').servers| == 5
    ensures Delayed(End(run'), e) && End(run').servers[0] == End(run).servers[0]
    ensures Is(End(run').servers[4], 1, C) && End(run').servers[4].commitIndex == 2
  {
    var a := End(run).servers[0];
    var b := End(run).servers[4];
    var env := Package(0, a, 1, 4, Replicate(1));
    run' := Extend(run, Careful, Send(0, 1, 4, Replicate(1)));
    ScanFinds(b.log, |b.log|, 1, 1);
    assert env.args.entries == C[2..] && env.covered == C;
    assert A + C[2..] == C;
    assert AppendEntries(b, env.args).s.log == C;
    run' := Extend(run', Careful, Deliver(env));
  }

  /** And the delayed message takes server 4's committed entries away: although every message covered the commit index
      it told and none led astray, servers 0 and 4 have committed different entries at index 1, and server 4's commit
      index is behind the end of its log. */
  lemma OldTermUncommits(s: State) returns (run: seq<State>)
    requires Init(s) && |s.servers| == 5
    ensures IsRunBy(run, Careful) && run[0] == s && |End(run).servers| == 5 && !AllRight(run)
    ensures var a, b := End(run).servers[0], End(run).servers[4];
            && a.commitIndex == 2 == b.commitIndex && |a.log| == 3 && |b.log| == 2 && a.log[1] != b.log[1]
  {
    var e;
    run := OldGoal(s);
    run, e := SendDelayed(run);
    run := LeadAgain(run, e);
    run := CommitBoth(run, e);
    run := PassOn(run, e);
    var b := End(run).servers[4];
    ScanFinds(b.log, |b.log|, 0, 0);
    assert [SENTINEL] + B[1..] == B;
    assert AppendEntries(b, e.args).s.log == B;
    run := Extend(run, Careful, Deliver(e));
    assert !PartRight(run, End(run).servers[4]);
  }
}
