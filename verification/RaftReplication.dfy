/** One leader replicating to one follower: messages in any order, the backoff loop, the follower's
    commit bound, and the range of nextIndex. */
module RaftReplication {
  import opened Network
  import opened RaftServer
  import opened RaftSystem
  import opened RaftCommit

  // --- Reordering: appends cut from one growing log only ever help ---

  /** Length of the longest common prefix. */
  ghost function Common(a: seq<Entry>, b: seq<Entry>): (n: nat)
    ensures n <= |a| && n <= |b| && a[..n] == b[..n]
    ensures n < |a| && n < |b| ==> a[n] != b[n]
  {
    if a == [] || b == [] || a[0] != b[0] then 0
    else
      var n := Common(a[1..], b[1..]);
      assert a[..n + 1] == [a[0]] + a[1..][..n] && b[..n + 1] == [b[0]] + b[1..][..n];
      n + 1
  }

  /** Having a prefix of b is having that many entries in common with b. */
  lemma PrefixByCommon(a: seq<Entry>, p: seq<Entry>, b: seq<Entry>)
    requires p <= b
    ensures p <= a <==> |p| <= Common(a, b)
  {
    var c := Common(a, b);
    if p <= a {
      forall i | 0 <= i < |p| ensures a[i] == b[i] {
        assert p[i] == a[i] && p[i] == b[i];
      }
    }
    if |p| <= c {
      assert a[..|p|] == a[..c][..|p|] == b[..c][..|p|] == p;
    }
  }

  ghost function DeliverAll(s: Server, msgs: seq<AppendArgs>): Server
    decreases |msgs|
  {
    if msgs == [] then s
    else
      var t := DeliverAll(s, msgs[..|msgs| - 1]);
      if t.log == [] then t else AppendEntries(t, msgs[|msgs| - 1]).s
  }

  /** The messages are cut from prefixes of one log: from the leader's log as it grew. */
  ghost predicate FromOneLog(msgs: seq<AppendArgs>, cuts: seq<seq<Entry>>, full: seq<Entry>) {
    && |cuts| == |msgs| && WellIndexed(full)
    && forall k :: 0 <= k < |msgs| ==> cuts[k] <= full && CutFrom(msgs[k], cuts[k])
  }

  /** One delivery: the follower's agreement with the leader's log does not shrink, covers the
      message if it was accepted, and is all that changes if the message brings nothing new. */
  lemma DeliveryHelps(s: Server, a: AppendArgs, cut: seq<Entry>, full: seq<Entry>)
    requires WellIndexed(s.log) && WellIndexed(full) && Matching(s.log, full)
    requires cut <= full && CutFrom(a, cut)
    ensures var r := AppendEntries(s, a);
            && WellIndexed(r.s.log) && Matching(r.s.log, full)
            && Common(r.s.log, full) >= Common(s.log, full)
            && (r.reply.success ==> cut <= r.s.log && Common(r.s.log, full) >= |cut|)
            && (Common(s.log, full) >= |cut| ==> r.s.log == s.log)
  {
    assert WellIndexed(cut);
    MatchingPrefix(s.log, full, cut);
    AppendOutcome(s, a, cut);
    PrefixByCommon(s.log, cut, full);
    PrefixByCommon(cut, cut, full);
    PrefixByCommon(AppendEntries(s, a).s.log, cut, full);
    assert Matching(full, full);
    MatchingPrefix(full, full, cut);
  }

  lemma DeliverNext(s: Server, msgs: seq<AppendArgs>, j: nat)
    requires j < |msgs| && DeliverAll(s, msgs[..j]).log != []
    ensures DeliverAll(s, msgs[..j + 1]) == AppendEntries(DeliverAll(s, msgs[..j]), msgs[j]).s
  {
    assert msgs[..j + 1][..j] == msgs[..j];
  }

  lemma {:induction false} DeliveriesKeep(s: Server, msgs: seq<AppendArgs>, cuts: seq<seq<Entry>>, full: seq<Entry>,
                                          j: nat)
    requires FromOneLog(msgs, cuts, full) && WellIndexed(s.log) && Matching(s.log, full) && j <= |msgs|
    ensures WellIndexed(DeliverAll(s, msgs[..j]).log) && Matching(DeliverAll(s, msgs[..j]).log, full)
  {
    if j > 0 {
      DeliveriesKeep(s, msgs, cuts, full, j - 1);
      DeliverNext(s, msgs, j - 1);
      DeliveryHelps(DeliverAll(s, msgs[..j - 1]), msgs[j - 1], cuts[j - 1], full);
    } else {
      assert msgs[..0] == [];
    }
  }

  lemma {:induction false} DeliveriesHelp(s: Server, msgs: seq<AppendArgs>, cuts: seq<seq<Entry>>, full: seq<Entry>,
                                          i: nat, j: nat)
    requires FromOneLog(msgs, cuts, full) && WellIndexed(s.log) && Matching(s.log, full) && i <= j <= |msgs|
    ensures Common(DeliverAll(s, msgs[..i]).log, full) <= Common(DeliverAll(s, msgs[..j]).log, full)
    decreases j - i
  {
    if i < j {
      DeliveriesHelp(s, msgs, cuts, full, i, j - 1);
      DeliveriesKeep(s, msgs, cuts, full, j - 1);
      DeliverNext(s, msgs, j - 1);
      DeliveryHelps(DeliverAll(s, msgs[..j - 1]), msgs[j - 1], cuts[j - 1], full);
    }
  }

  /** Reordering safety: over any sequence of duplicated, stale or reordered appends cut from one growing
      log, the follower's common prefix with it never shrinks; once a message was accepted the
      follower's log keeps everything it covered, and delivering it again changes nothing. */
  lemma ReorderingIsSafe(s: Server, msgs: seq<AppendArgs>, cuts: seq<seq<Entry>>, full: seq<Entry>, k: nat, j: nat)
    requires FromOneLog(msgs, cuts, full) && WellIndexed(s.log) && Matching(s.log, full) && k < j <= |msgs|
    ensures var t, u := DeliverAll(s, msgs[..k]), DeliverAll(s, msgs[..j]);
            && t.log != [] && u.log != []
            && Common(t.log, full) <= Common(u.log, full)
            && (AppendEntries(t, msgs[k]).reply.success ==>
                  cuts[k] <= u.log && AppendEntries(u, msgs[k]).s.log == u.log)
  {
    var t, u := DeliverAll(s, msgs[..k]), DeliverAll(s, msgs[..j]);
    DeliveriesKeep(s, msgs, cuts, full, k);
    DeliveriesKeep(s, msgs, cuts, full, j);
    DeliveriesHelp(s, msgs, cuts, full, k, j);
    DeliveriesHelp(s, msgs, cuts, full, k + 1, j);
    DeliverNext(s, msgs, k);
    DeliveryHelps(t, msgs[k], cuts[k], full);
    PrefixByCommon(u.log, cuts[k], full);
    DeliveryHelps(u, msgs[k], cuts[k], full);
  }

  // --- Backoff ---

  lemma {:induction false} MergeWellIndexed(f: seq<Entry>, l: seq<Entry>, pos: nat)
    requires WellIndexed(f) && WellIndexed(l) && 1 <= pos <= |f| && pos <= |l|
    ensures WellIndexed(Merge(f, pos, l[pos..]))
    decreases |l| - pos
  {
    if pos < |l| && pos < |f| && f[pos].term == l[pos].term {
      assert l[pos..][1..] == l[pos + 1..];
      MergeWellIndexed(f, l, pos + 1);
    }
  }

  /** An append cut behind position next - 1 of the leader's log. */
  function AppendAt(l: seq<Entry>, term: int, leader: int, commit: int, next: int): AppendArgs
    requires 1 <= next <= |l|
  {
    AppendArgs(term, leader, next - 1, l[next - 1].term, l[next..], commit)
  }

  ghost function AnsweredIn(net: seq<Fate>): nat
    decreases |net|
  {
    if net == [] then 0 else AnsweredIn(net[..|net| - 1]) + if net[|net| - 1] == Answered then 1 else 0
  }

  /** The retry loop of tryToCommit towards one follower, in isolation: nextIndex stays in range, steps
      back once per rejection, and is accepted after at most nextIndex - 1 of them. */
  method Backoff(l: seq<Entry>, term: int, leader: int, commit: int, f0: Server, next0: int, net: seq<Fate>)
      returns (f: Server, next: int, rejected: nat, accepted: bool)
    requires WellIndexed(l) && WellIndexed(f0.log) && f0.currentTerm <= term && 1 <= next0 <= |l|
    ensures 1 <= next <= next0 && next == next0 - rejected && rejected <= next0 - 1
    ensures AnsweredIn(net) >= next0 ==> accepted
    ensures accepted && Matching(f0.log, l) ==> l <= f.log
  {
    f, next, rejected, accepted := f0, next0, 0, false;
    for i := 0 to |net|
      invariant WellIndexed(f.log) && f.currentTerm <= term
      invariant 1 <= next && next == next0 - rejected
      invariant AnsweredIn(net[..i]) == rejected
      invariant Matching(f0.log, l) ==> Matching(f.log, l)
      invariant !accepted
    {
      AnsweredNext(net, i);
      if net[i] != Dropped {
        var success;
        f, success := TryOnce(f, AppendAt(l, term, leader, commit, next), l, next);
        if net[i] == Answered {
          if success {
            accepted := true;
            return;
          }
          rejected := rejected + 1;
          next := Max(next - 1, 1);
        }
      }
    }
    assert net[..|net|] == net;
  }

  /** The follower handles one attempt: at next == 1 the sentinel makes it succeed. */
  method TryOnce(f: Server, a: AppendArgs, l: seq<Entry>, next: int) returns (f': Server, success: bool)
    requires WellIndexed(l) && WellIndexed(f.log) && f.currentTerm <= a.term && 1 <= next <= |l|
    requires a == AppendAt(l, a.term, a.leader, a.leaderCommit, next)
    ensures f' == AppendEntries(f, a).s && success == AppendEntries(f, a).reply.success
    ensures WellIndexed(f'.log) && f'.currentTerm == a.term && (next == 1 ==> success)
    ensures Matching(f.log, l) ==> Matching(f'.log, l) && (success ==> l <= f'.log)
  {
    BackoffStep(f, a, l, next);
    var r := AppendEntries(f, a);
    return r.s, r.reply.success;
  }

  lemma AnsweredNext(net: seq<Fate>, i: nat)
    requires i < |net|
    ensures AnsweredIn(net[..i + 1]) == AnsweredIn(net[..i]) + if net[i] == Answered then 1 else 0
    ensures AnsweredIn(net[..i + 1]) <= AnsweredIn(net)
  {
    assert net[..i + 1][..i] == net[..i];
    AnsweredBefore(net, i + 1);
  }

  lemma {:induction false} AnsweredBefore(net: seq<Fate>, i: nat)
    requires i <= |net|
    ensures AnsweredIn(net[..i]) <= AnsweredIn(net)
    decreases |net|
  {
    if i < |net| {
      AnsweredBefore(net[..|net| - 1], i);
      assert net[..|net| - 1][..i] == net[..i];
    } else {
      assert net[..i] == net;
    }
  }

  /** One attempt: at next == 1 the sentinel makes it succeed. */
  lemma BackoffStep(f: Server, a: AppendArgs, l: seq<Entry>, next: int)
    requires WellIndexed(l) && WellIndexed(f.log) && f.currentTerm <= a.term && 1 <= next <= |l|
    requires a == AppendAt(l, a.term, a.leader, a.leaderCommit, next)
    ensures var r := AppendEntries(f, a);
            && WellIndexed(r.s.log) && r.s.currentTerm == a.term
            && (next == 1 ==> r.reply.success)
            && (Matching(f.log, l) ==> Matching(r.s.log, l) && (r.reply.success ==> l <= r.s.log))
  {
    ScanFinds(f.log, |f.log|, next - 1, l[next - 1].term);
    if Scan(f.log, |f.log|, next - 1, l[next - 1].term) >= 0 {
      MergeWellIndexed(f.log, l, next);
    }
    BackoffMatches(f, a, l, next);
  }

  lemma BackoffMatches(f: Server, a: AppendArgs, l: seq<Entry>, next: int)
    requires WellIndexed(l) && WellIndexed(f.log) && f.currentTerm <= a.term && 1 <= next <= |l|
    requires a == AppendAt(l, a.term, a.leader, a.leaderCommit, next)
    ensures var r := AppendEntries(f, a);
            Matching(f.log, l) ==> Matching(r.s.log, l) && (r.reply.success ==> l <= r.s.log)
  {
    if Matching(f.log, l) {
      assert CutFrom(a, l);
      AppendOutcome(f, a, l);
      assert Matching(l, l);
    }
  }

  // --- The follower's commit bound ---

  /** The committed part of a follower's log is the leader's. */
  ghost predicate CommitAgrees(f: Server, full: seq<Entry>) {
    f.commitIndex < |f.log| && f.commitIndex < |full| &&
    forall i :: 0 <= i <= f.commitIndex ==> f.log[i] == full[i]
  }

  /** The follower accepts the message and lets it raise its commit index. */
  ghost predicate Raises(f: Server, a: AppendArgs)
    requires f.log != []
  {
    f.commitIndex < a.leaderCommit && AppendEntries(f, a).reply.success
  }

  /** The follower's log goes on behind what the message covers, with, at the new commit index, an entry that is
      not the sender's. */
  ghost predicate GoesAstray(f: Server, env: Envelope) {
    && env.covered <= f.log && |env.covered| < |f.log| && |env.covered| <= env.args.leaderCommit
    && var c := Min(env.args.leaderCommit, |f.log| - 1);
       !(c < |env.log| && f.log[c].term == env.log[c].term)
  }

  /** What is known of a message and its receiver in a run. */
  lemma Delivered(run: seq<State>, env: Envelope)
    requires IsRun(run) && OneLeader(End(run)) && Enabled(End(run), Deliver(env))
    ensures var f := End(run).servers[env.to];
            && f.log != [] && env.covered <= env.log && env.covered != [] && Matching(f.log, env.log)
            && (AppendEntries(f, env.args).reply.success ==>
                  AppendEntries(f, env.args).s.log == if env.covered <= f.log then f.log else env.covered)
            && (!AppendEntries(f, env.args).reply.success ==> AppendEntries(f, env.args).s.log == f.log)
  {
    var s := End(run);
    LogInvRun(run, |run| - 1);
    assert Held(env.to, s.servers[env.to].log) in s.held;
    KnownIsFine(s, env.covered);
    KnownIsFine(s, env.log);
    AppendOutcome(s.servers[env.to], env.args, env.covered);
  }

  /** The bound min(leaderCommit, last index), exactly: in every run where no term has two leaders, a follower
      whose commit index a delivery raises has then committed what the sender's log has, if and only if it does
      not go astray. */
  lemma CommitBoundExactly(run: seq<State>, env: Envelope)
    requires IsRun(run) && OneLeader(End(run)) && Enabled(End(run), Deliver(env))
    requires Raises(End(run).servers[env.to], env.args)
    ensures var f := End(run).servers[env.to];
            CommitAgrees(AppendEntries(f, env.args).s, env.log) <==> !GoesAstray(f, env)
  {
    var f := End(run).servers[env.to];
    Delivered(run, env);
    var g := AppendEntries(f, env.args).s;
    WellIndexedLast(run, env);
    var c := Min(env.args.leaderCommit, |g.log| - 1);
    assert g.commitIndex == c;
    if !GoesAstray(f, env) {
      assert c < |env.log| && (c < 0 || g.log[c].term == env.log[c].term);
      if c >= 0 && g.log == f.log {
        assert f.log[..c + 1] == env.log[..c + 1];
        assert forall i :: 0 <= i <= c ==> f.log[i] == f.log[..c + 1][i] && env.log[i] == env.log[..c + 1][i];
      }
    }
  }

  /** A delivery leaves the receiver with a well-indexed log. */
  lemma WellIndexedLast(run: seq<State>, env: Envelope)
    requires IsRun(run) && OneLeader(End(run)) && Enabled(End(run), Deliver(env))
    ensures WellIndexed(AppendEntries(End(run).servers[env.to], env.args).s.log)
  {
    LogInvRun(run, |run| - 1);
    DeliverKeepsMatching(End(run), env);
    assert ServersRight(Do(End(run), Deliver(env)));
  }

  /** So a message that covers the commit index it tells leaves the follower, in every such run, with a committed part
      that is this sender's, if it raised the commit index or if it was so before. */
  lemma CoveringAgrees(run: seq<State>, env: Envelope)
    requires IsRun(run) && OneLeader(End(run)) && Enabled(End(run), Deliver(env))
    requires env.args.leaderCommit < |env.covered|
    ensures var f := End(run).servers[env.to];
            && f.log != []
            && (Raises(f, env.args) || CommitAgrees(f, env.log) ==> CommitAgrees(AppendEntries(f, env.args).s, env.log))
  {
    var f := End(run).servers[env.to];
    Delivered(run, env);
    if Raises(f, env.args) {
      CommitBoundExactly(run, env);
    } else if CommitAgrees(f, env.log) {
      StillAgrees(f, env.covered, env.log);
    }
  }

  /** Replacing a log by a part of the leader's keeps what agreed with the leader's. */
  lemma StillAgrees(f: Server, covered: seq<Entry>, full: seq<Entry>)
    requires CommitAgrees(f, full) && covered <= full
    ensures CommitAgrees(f.(log := if covered <= f.log then f.log else covered), full)
  {
    assert forall i :: 0 <= i < |covered| ==> covered[i] == full[i];
    if |covered| <= f.commitIndex {
      assert covered == f.log[..|covered|];
    }
  }

  // --- How a sender takes an answer ---

  /** What an answer from a peer does to the sender's indices for it: a replication's success lifts them to its index,
      a heartbeat's lifts matchIndex to the entry before it, a refusal in no later term steps nextIndex back, not below
      1; nothing is lowered by a success, and nothing else about the sender changes but a later term it learns of. */
  lemma ReplyLaw(srv: Server, r: AppendAnswer)
    requires r.env.to < |srv.nextIndex| && r.env.to < |srv.matchIndex|
    ensures var t := TakeReply(srv, r); var p := r.env.to;
            && t.me == srv.me && t.log == srv.log && t.commitIndex == srv.commitIndex
            && |t.nextIndex| == |srv.nextIndex| && |t.matchIndex| == |srv.matchIndex|
            && (forall q :: 0 <= q < |srv.nextIndex| && q != p ==> t.nextIndex[q] == srv.nextIndex[q])
            && (forall q :: 0 <= q < |srv.matchIndex| && q != p ==> t.matchIndex[q] == srv.matchIndex[q])
            && (r.reply.success || r.reply.term <= srv.currentTerm ==>
                  t.currentTerm == srv.currentTerm && t.role == srv.role && t.voteFor == srv.voteFor)
            && (!r.reply.success && r.reply.term > srv.currentTerm ==>
                  t.currentTerm == r.reply.term && t.role == Follower && t.nextIndex == srv.nextIndex)
            && (r.reply.success && r.env.task.Replicate? ==>
                  && t.nextIndex[p] >= srv.nextIndex[p] && t.nextIndex[p] > r.env.task.index
                  && (t.nextIndex[p] == srv.nextIndex[p] || t.nextIndex[p] == r.env.task.index + 1)
                  && t.matchIndex[p] >= srv.matchIndex[p] && t.matchIndex[p] >= r.env.task.index
                  && (t.matchIndex[p] == srv.matchIndex[p] || t.matchIndex[p] == r.env.task.index))
            && (r.reply.success && r.env.task.Heartbeat? ==>
                  && t.nextIndex[p] == srv.nextIndex[p]
                  && t.matchIndex[p] >= srv.matchIndex[p] && t.matchIndex[p] >= r.env.args.prevLogIndex
                  && (t.matchIndex[p] == srv.matchIndex[p] || t.matchIndex[p] == r.env.args.prevLogIndex))
            && (!r.reply.success ==> t.matchIndex[p] == srv.matchIndex[p])
            && (!r.reply.success && r.reply.term <= srv.currentTerm && srv.nextIndex[p] > 1 ==>
                  t.nextIndex[p] == srv.nextIndex[p] - 1)
            && (!r.reply.success && r.reply.term <= srv.currentTerm && srv.nextIndex[p] <= 1 ==> t.nextIndex[p] == 1)
  {
  }

  // --- The range of nextIndex ---

  ghost predicate InRange(srv: Server) {
    forall p :: 0 <= p < |srv.nextIndex| ==> 1 <= srv.nextIndex[p] <= |srv.log|
  }

  /** An answer keeps nextIndex in range exactly when it is not the success of a replication whose
      index the log no longer reaches. */
  lemma ReplyKeepsRangeExactly(srv: Server, r: AppendAnswer)
    requires InRange(srv) && r.env.to < |srv.nextIndex| && r.env.to < |srv.matchIndex|
    ensures InRange(TakeReply(srv, r)) <==> !(r.reply.success && r.env.task.Replicate? && r.env.task.index >= |srv.log|)
  {
    var t := TakeReply(srv, r);
    if r.reply.success && r.env.task.Replicate? && r.env.task.index >= |srv.log| {
      assert t.nextIndex[r.env.to] > |t.log|;
    }
  }

  /** Steps in which a sender takes successes only of its current term. */
  ghost predicate Timely(s: State, a: Action) {
    a.HandleReply? && a.r.env.from < |s.servers| && a.r.reply.success && a.r.env.task.Replicate? ==>
      a.r.env.args.term == s.servers[a.r.env.from].currentTerm
  }

  ghost predicate LeadersInRange(s: State) {
    forall i :: 0 <= i < |s.servers| && s.servers[i].role == Leader ==> InRange(s.servers[i])
  }

  /** A leader takes the success of a replication whose index its log no longer reaches. */
  ghost predicate PastTheLog(s: State, a: Action)
    requires Enabled(s, a)
  {
    a.HandleReply? && a.r.reply.success && a.r.env.task.Replicate?
    && s.servers[a.r.env.from].role == Leader && a.r.env.task.index >= |s.servers[a.r.env.from].log|
  }

  /** A step keeps every leader's nextIndex in range exactly when it is not that one. */
  lemma RangeStepExactly(s: State, a: Action)
    requires ServersRight(s) && LeadersInRange(s) && Enabled(s, a)
    ensures LeadersInRange(Do(s, a)) <==> !PastTheLog(s, a)
  {
    var s' := Do(s, a);
    if PastTheLog(s, a) {
      var i := a.r.env.from;
      ReplyKeepsRangeExactly(s.servers[i], a.r);
      assert s'.servers[i] == TakeReply(s.servers[i], a.r) && !InRange(s'.servers[i]);
      return;
    }
    forall i: nat | i < |s'.servers| && s'.servers[i].role == Leader ensures InRange(s'.servers[i]) {
      if a.HandleReply? && a.r.env.from == i {
        ReplyKeepsRangeExactly(s.servers[i], a.r);
      } else if a.Lead? && a.i == i {
        assert WellIndexed(s.servers[i].log);
      } else {
        RangeUntouched(s, a, i);
        assert InRange(s.servers[i]);
      }
    }
  }

  /** No other step gives a server the lead, touches its nextIndex or shortens its log while it leads. */
  lemma RangeUntouched(s: State, a: Action, i: nat)
    requires Enabled(s, a) && i < |s.servers| && Do(s, a).servers[i].role == Leader
    requires !(a.HandleReply? && a.r.env.from == i) && !(a.Lead? && a.i == i)
    ensures var srv, srv' := s.servers[i], Do(s, a).servers[i];
            srv.role == Leader && srv'.nextIndex == srv.nextIndex && |srv.log| <= |srv'.log|
  {
  }

  lemma LeadersInRangeStep(s: State, a: Action)
    requires LogInv(s) && CommitInv(s) && LeadersInRange(s) && Enabled(s, a) && Timely(s, a)
    ensures LeadersInRange(Do(s, a))
  {
    RangeStepExactly(s, a);
    if a.HandleReply? && a.r.reply.success && a.r.env.task.Replicate? {
      assert a.r.env in s.appends;
      assert Goal(a.r.env.from, a.r.env.args.term, a.r.env.task.index) in s.goals;
    }
  }

  lemma {:induction false} TimelyRun(run: seq<State>, i: nat)
    requires IsRunBy(run, Timely) && OneLeader(End(run)) && i < |run|
    ensures LeadersInRange(run[i]) && LogInv(run[i]) && CommitInv(run[i])
  {
    RunByIsRun(run, Timely);
    CommitInvRun(run, i);
    if i > 0 {
      TimelyRun(run, i - 1);
      assert NextBy(run[i - 1], run[i - 1 + 1], Timely);
      var a :| Enabled(run[i - 1], a) && Timely(run[i - 1], a) && run[i] == Do(run[i - 1], a);
      LeadersInRangeStep(run[i - 1], a);
    }
  }

  /** A leader keeps 1 <= nextIndex <= len(log) for every peer, so cutting its messages never leaves its
      log, in every run in which no term has two leaders and senders take
      replication successes only of their current term. */
  lemma NextIndexInRange(run: seq<State>, i: nat, p: nat)
    requires IsRunBy(run, Timely) && OneLeader(End(run))
    requires i < |End(run).servers| && p < |End(run).servers| && End(run).servers[i].role == Leader
    ensures p < |End(run).servers[i].nextIndex|
    ensures 1 <= End(run).servers[i].nextIndex[p] <= |End(run).servers[i].log|
  {
    TimelyRun(run, |run| - 1);
  }
}
