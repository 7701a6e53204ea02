/** State Machine Safety: when what servers have committed, followers included, is what a leader committed. */
module RaftSafety {
  import opened RaftServer
  import opened RaftSystem
  import opened RaftCommit
  import opened RaftElection
  import opened RaftOrder
  import opened RaftCompleteness
  import opened RaftReplication

  /** No delivery that raises a commit index leads its receiver astray. */
  ghost predicate StaysOnCourse(s: State, a: Action) {
    a.Deliver? && a.env.to < |s.servers| && s.servers[a.env.to].log != [] && Raises(s.servers[a.env.to], a.env.args) ==>
      !GoesAstray(s.servers[a.env.to], a.env)
  }

  /** A message that raises a commit index carries the term its sender was in. */
  ghost predicate RaisesInTerm(s: State, a: Action) {
    a.Deliver? && a.env.to < |s.servers| && s.servers[a.env.to].log != [] && Raises(s.servers[a.env.to], a.env.args) ==>
      a.env.args.term == a.env.sentIn
  }

  ghost predicate Strict(s: State, a: Action) {
    Checked(s, a) && StaysOnCourse(s, a) && RaisesInTerm(s, a)
  }

  // --- Logs that are committed ---

  ghost predicate CommitsAt(run: seq<State>, x: nat, g: Goal) {
    x < |run| && Enabled(run[x], Commit(g)) && 0 <= g.index < |run[x].servers[g.server].log|
  }

  /** Nothing but the sentinel, or part of what a leader has committed by the i-th state. */
  ghost predicate IsCommitted(run: seq<State>, i: nat, l: seq<Entry>, term: int) {
    || l == [SENTINEL]
    || exists x: nat, g: Goal ::
         x <= i && CommitsAt(run, x, g) && l <= Committed(run[x], g) && g.term <= term
  }

  /** What the server has committed. */
  ghost function Part(srv: Server): seq<Entry>
    requires 0 <= srv.commitIndex < |srv.log|
  {
    srv.log[..srv.commitIndex + 1]
  }

  /** The server's committed part is committed, by a leader of a term it has reached. */
  ghost predicate ServerSafe(run: seq<State>, i: nat, p: nat)
    requires i < |run|
  {
    && p < |run[i].servers|
    && var srv := run[i].servers[p];
       0 <= srv.commitIndex < |srv.log| && IsCommitted(run, i, Part(srv), srv.currentTerm)
  }

  /** What a message says is committed is, by a leader of a term its sender had reached. */
  ghost predicate MessageSafe(run: seq<State>, i: nat, e: Envelope) {
    && 0 <= e.args.leaderCommit < |e.log|
    && IsCommitted(run, i, e.log[..e.args.leaderCommit + 1], e.sentIn)
  }

  ghost predicate ServersSafe(run: seq<State>, i: nat)
    requires i < |run|
  {
    forall p: nat :: p < |run[i].servers| ==> ServerSafe(run, i, p)
  }

  ghost predicate MessagesSafe(run: seq<State>, i: nat)
    requires i < |run|
  {
    forall e :: e in run[i].appends ==> MessageSafe(run, i, e)
  }

  lemma CommittedLater(run: seq<State>, i: nat, j: nat, l: seq<Entry>, l': seq<Entry>, term: int, term': int)
    requires IsCommitted(run, i, l, term) && i <= j && term <= term' && l' <= l && l' != []
    ensures IsCommitted(run, j, l', term')
  {
    if l != [SENTINEL] {
      var x: nat, g: Goal :| x <= i && CommitsAt(run, x, g) && l <= Committed(run[x], g) && g.term <= term;
      assert l' <= Committed(run[x], g);
    }
  }

  // --- A committed part stays in the log ---

  lemma KeepsPart(s: State, a: Action, c: Commitment, p: nat, part: seq<Entry>)
    requires LogInv(s) && SentRight(s, c) && Enabled(s, a) && p < |s.servers|
    requires part <= c.log && part <= s.servers[p].log && c.g.term <= s.servers[p].currentTerm && c.g in s.goals
    ensures |Do(s, a).servers| == |s.servers| && part <= Do(s, a).servers[p].log
  {
    ServerStep(s, a, p);
    if a.Deliver? && LogMoves(s, a, p) {
      DeliverKeepsPart(s, a.env, c, part);
    }
  }

  lemma DeliverKeepsPart(s: State, env: Envelope, c: Commitment, part: seq<Entry>)
    requires LogInv(s) && SentRight(s, c) && Enabled(s, Deliver(env)) && env.task.Replicate?
    requires part <= c.log && part <= s.servers[env.to].log
    requires c.g.term <= s.servers[env.to].currentTerm && c.g in s.goals
    ensures part <= Do(s, Deliver(env)).servers[env.to].log
  {
    ReplacedBy(s, env);
    var log, log' := s.servers[env.to].log, Do(s, Deliver(env)).servers[env.to].log;
    if log' != log {
      CoveredHasPart(log, env.covered, c.log, part);
    }
  }

  lemma CoveredHasPart(log: seq<Entry>, covered: seq<Entry>, whole: seq<Entry>, part: seq<Entry>)
    requires part <= whole && part <= log && (covered <= whole || whole <= covered)
    ensures part <= covered || covered <= log
  {
    if covered <= whole && |covered| < |part| {
      assert covered == part[..|covered|];
    }
  }

  lemma SentRightAt(run: seq<State>, x: nat, g: Goal, i: nat) returns (c: Commitment)
    requires IsRunBy(run, Checked) && CommitsAt(run, x, g) && x <= i < |run|
    ensures c.g == g && c.log == Committed(run[x], g) && g in run[i].goals && SentRight(run[i], c)
  {
    var k;
    c, k := CommittedIs(run, x, g);
    CompleteRun(run, c, k, x, i);
    RunByIsRun(run, Checked);
    Accumulate(run, k + 1, i);
  }

  lemma LogInvAt(run: seq<State>, i: nat)
    requires IsRunBy(run, Checked) && i < |run|
    ensures LogInv(run[i])
  {
    OrderRun(run, i);
  }

  lemma StepKeepsPart(run: seq<State>, i: nat, a: Action, p: nat, part: seq<Entry>, x: nat, g: Goal)
    requires IsRunBy(run, Checked) && i < |run| && Enabled(run[i], a) && p < |run[i].servers|
    requires x <= i && CommitsAt(run, x, g) && part <= Committed(run[x], g) && g.term <= run[i].servers[p].currentTerm
    requires part <= run[i].servers[p].log
    ensures |Do(run[i], a).servers| == |run[i].servers| && part <= Do(run[i], a).servers[p].log
  {
    var c := SentRightAt(run, x, g, i);
    LogInvAt(run, i);
    KeepsPart(run[i], a, c, p, part);
  }

  lemma SentinelStays(run: seq<State>, i: nat, p: nat)
    requires IsRunBy(run, Checked) && i < |run| && p < |run[i].servers|
    ensures [SENTINEL] <= run[i].servers[p].log
  {
    LogInvAt(run, i);
    assert WellIndexed(run[i].servers[p].log);
  }

  /** A committed part of a server stays where it is. */
  lemma PartStays(run: seq<State>, i: nat, a: Action, p: nat)
    requires IsRunBy(run, Checked) && i + 1 < |run| && Enabled(run[i], a) && run[i + 1] == Do(run[i], a)
    requires ServerSafe(run, i, p)
    ensures p < |run[i + 1].servers| && Part(run[i].servers[p]) <= run[i + 1].servers[p].log
  {
    var srv := run[i].servers[p];
    var part := Part(srv);
    SameServers(run[i], a);
    if part == [SENTINEL] {
      SentinelStays(run, i + 1, p);
    } else {
      var x: nat, g: Goal :|
        x <= i && CommitsAt(run, x, g) && part <= Committed(run[x], g) && g.term <= srv.currentTerm;
      StepKeepsPart(run, i, a, p, part, x, g);
    }
  }

  // --- How a committed part grows ---

  lemma IndexStep(s: State, a: Action, p: nat)
    requires Enabled(s, a) && p < |s.servers|
    ensures |Do(s, a).servers| == |s.servers|
    ensures var srv, srv' := s.servers[p], Do(s, a).servers[p];
            || srv'.commitIndex == srv.commitIndex
            || (a.Commit? && a.g.server == p && srv'.commitIndex == a.g.index > srv.commitIndex
                && srv'.log == srv.log && srv'.currentTerm == srv.currentTerm)
            || (a.Deliver? && a.env.to == p && Raises(srv, a.env.args) && srv' == AppendEntries(srv, a.env.args).s)
  {
  }

  lemma PrefixRun(run: seq<State>, i: nat)
    requires IsRunBy(run, Checked) && i < |run|
    ensures IsRun(run[..i + 1]) && End(run[..i + 1]) == run[i] && OneLeader(run[i])
  {
    RunByIsRun(run, Checked);
    CheckedRun(run, i);
    var pre := run[..i + 1];
    forall j | 0 <= j < |pre| - 1 ensures Next(pre[j], pre[j + 1]) {
      assert Next(run[j], run[j + 1]);
    }
  }

  /** What a raising delivery leaves committed: what the sender's log has, exactly if it stays on course. */
  lemma RaisedPart(run: seq<State>, i: nat, env: Envelope)
    requires IsRunBy(run, Checked) && i < |run| && Enabled(run[i], Deliver(env))
    requires Raises(run[i].servers[env.to], env.args) && 0 <= run[i].servers[env.to].commitIndex
    ensures var f := run[i].servers[env.to]; var f' := AppendEntries(f, env.args).s;
            && 0 <= f'.commitIndex < |f'.log| && f'.commitIndex <= env.args.leaderCommit
            && f'.currentTerm == env.args.term && f'.commitIndex == Min(env.args.leaderCommit, |f'.log| - 1)
            && (CommitAgrees(f', env.log) <==> !GoesAstray(f, env))
  {
    PrefixRun(run, i);
    CommitBoundExactly(run[..i + 1], env);
    WellIndexedLast(run[..i + 1], env);
  }

  lemma AgreesIsPrefix(f: Server, log: seq<Entry>, n: nat)
    requires CommitAgrees(f, log) && 0 <= f.commitIndex <= n < |log|
    ensures Part(f) <= log[..n + 1]
  {
    assert forall i :: 0 <= i <= f.commitIndex ==> Part(f)[i] == f.log[i] == log[i];
  }

  /** Every server stays safe, if the message delivered is and the step is strict. */
  lemma ServerSafeStep(run: seq<State>, i: nat, a: Action, p: nat)
    requires IsRunBy(run, Checked) && i + 1 < |run| && Enabled(run[i], a) && run[i + 1] == Do(run[i], a)
    requires ServerSafe(run, i, p) && (a.Deliver? ==> MessageSafe(run, i, a.env))
    requires StaysOnCourse(run[i], a) && (a.Deliver? && a.env.to == p ==> RaisesInTerm(run[i], a))
    ensures ServerSafe(run, i + 1, p)
  {
    var srv, srv' := run[i].servers[p], Do(run[i], a).servers[p];
    IndexStep(run[i], a, p);
    if srv'.commitIndex == srv.commitIndex {
      SameIndex(run, i, a, p);
    } else if a.Commit? {
      var c, k := CommittedIs(run, i, a.g);
      assert CommitsAt(run, i, a.g) && Part(srv') <= Committed(run[i], a.g);
    } else {
      RaisedPart(run, i, a.env);
      AgreesIsPrefix(srv', a.env.log, a.env.args.leaderCommit);
      var l := a.env.log[..a.env.args.leaderCommit + 1];
      CommittedLater(run, i, i + 1, l, Part(srv'), a.env.sentIn, srv'.currentTerm);
    }
  }

  lemma SameIndex(run: seq<State>, i: nat, a: Action, p: nat)
    requires IsRunBy(run, Checked) && i + 1 < |run| && Enabled(run[i], a) && run[i + 1] == Do(run[i], a)
    requires ServerSafe(run, i, p) && p < |run[i + 1].servers|
    requires run[i + 1].servers[p].commitIndex == run[i].servers[p].commitIndex
    ensures ServerSafe(run, i + 1, p)
  {
    var srv, srv' := run[i].servers[p], run[i + 1].servers[p];
    PartStays(run, i, a, p);
    assert Part(srv') == Part(srv);
    TermsGrow(run, i, a, p);
    CommittedLater(run, i, i + 1, Part(srv), Part(srv'), srv.currentTerm, srv'.currentTerm);
  }

  lemma TermsGrow(run: seq<State>, i: nat, a: Action, p: nat)
    requires IsRunBy(run, Checked) && i < |run| && Enabled(run[i], a) && p < |run[i].servers|
    ensures |Do(run[i], a).servers| == |run[i].servers|
    ensures run[i].servers[p].currentTerm <= Do(run[i], a).servers[p].currentTerm
  {
    LogInvAt(run, i);
    ServerStep(run[i], a, p);
  }

  /** A message is as safe as its sender. */
  lemma MessageSafeStep(run: seq<State>, i: nat, a: Action, e: Envelope)
    requires i + 1 < |run| && Enabled(run[i], a) && run[i + 1] == Do(run[i], a) && e in run[i + 1].appends
    requires ServersSafe(run, i) && MessagesSafe(run, i)
    ensures MessageSafe(run, i + 1, e)
  {
    if e in run[i].appends {
      var l := e.log[..e.args.leaderCommit + 1];
      CommittedLater(run, i, i + 1, l, l, e.sentIn, e.sentIn);
    } else {
      assert a.Send? && e == Package(a.i, run[i].servers[a.i], a.term, a.peer, a.task);
      assert ServerSafe(run, i, a.i);
      CommittedLater(run, i, i + 1, Part(run[i].servers[a.i]), Part(run[i].servers[a.i]), e.sentIn, e.sentIn);
    }
  }

  lemma SafeStep(run: seq<State>, i: nat, a: Action)
    requires IsRunBy(run, Checked) && i + 1 < |run| && Enabled(run[i], a) && run[i + 1] == Do(run[i], a)
    requires ServersSafe(run, i) && MessagesSafe(run, i) && Strict(run[i], a)
    ensures ServersSafe(run, i + 1) && MessagesSafe(run, i + 1)
  {
    var n := i + 1;
    ServersSafeStep(run, i, a);
    forall e | e in run[n].appends ensures MessageSafe(run, n, e) {
      MessageSafeStep(run, i, a, e);
    }
  }

  lemma ServersSafeStep(run: seq<State>, i: nat, a: Action)
    requires IsRunBy(run, Checked) && i + 1 < |run| && Enabled(run[i], a) && run[i + 1] == Do(run[i], a)
    requires ServersSafe(run, i) && MessagesSafe(run, i) && Strict(run[i], a)
    ensures ServersSafe(run, i + 1)
  {
    var n := i + 1;
    SameServers(run[i], a);
    forall p: nat | p < |run[n].servers| ensures ServerSafe(run, n, p) {
      assert ServerSafe(run, i, p);
      ServerSafeStep(run, i, a, p);
    }
  }

  lemma StartsSafe(run: seq<State>)
    requires run != [] && Init(run[0])
    ensures ServersSafe(run, 0) && MessagesSafe(run, 0)
  {
  }

  /** A run whose first n steps are strict. */
  ghost predicate StrictUpTo(run: seq<State>, n: nat) {
    IsRunBy(run, Checked) && n < |run| && forall j :: 0 <= j < n ==> NextBy(run[j], run[j + 1], Strict)
  }

  ghost predicate SafeAt(run: seq<State>, i: nat) {
    i < |run| && ServersSafe(run, i) && MessagesSafe(run, i)
  }

  lemma {:induction false} SafeUpTo(run: seq<State>, n: nat, i: nat)
    requires StrictUpTo(run, n) && i <= n
    ensures SafeAt(run, i)
  {
    if i == 0 {
      StartsSafe(run);
    } else {
      SafeUpTo(run, n, i - 1);
      SafeNext(run, n, i - 1);
    }
  }

  lemma SafeNext(run: seq<State>, n: nat, i: nat)
    requires StrictUpTo(run, n) && i < n && SafeAt(run, i)
    ensures SafeAt(run, i + 1)
  {
    assert NextBy(run[i], run[i + 1], Strict);
    var a :| Enabled(run[i], a) && Strict(run[i], a) && run[i + 1] == Do(run[i], a);
    SafeStep(run, i, a);
  }

  lemma StrictIsChecked(run: seq<State>)
    requires IsRunBy(run, Strict)
    ensures IsRunBy(run, Checked)
  {
    forall i | 0 <= i < |run| - 1 ensures NextBy(run[i], run[i + 1], Checked) {
      assert NextBy(run[i], run[i + 1], Strict);
      var a :| Enabled(run[i], a) && Strict(run[i], a) && run[i + 1] == Do(run[i], a);
      assert Checked(run[i], a);
    }
  }

  lemma SafeRun(run: seq<State>, i: nat)
    requires IsRunBy(run, Strict) && i < |run|
    ensures ServersSafe(run, i) && MessagesSafe(run, i)
  {
    StrictIsChecked(run);
    SafeUpTo(run, |run| - 1, i);
  }

  // --- The theorems ---

  /** What a server has committed is what leaders have committed, or nothing. */
  ghost predicate FromLeaders(run: seq<State>, l: seq<Entry>) {
    || l == [SENTINEL]
    || exists x: nat, g: Goal :: CommitsAt(run, x, g) && l <= Committed(run[x], g)
  }

  ghost predicate PartRight(run: seq<State>, srv: Server) {
    0 <= srv.commitIndex < |srv.log| && FromLeaders(run, Part(srv))
  }

  lemma SafeIsRight(run: seq<State>, i: nat, p: nat)
    requires i < |run| && ServerSafe(run, i, p)
    ensures PartRight(run, run[i].servers[p])
  {
  }

  /** State Machine Safety: in every strict run, at every time, every server's log up to its commit index is part
      of a log that a leader committed. */
  lemma StateMachineSafety(run: seq<State>, i: nat, p: nat)
    requires IsRunBy(run, Strict) && i < |run| && p < |run[i].servers|
    ensures PartRight(run, run[i].servers[p])
  {
    SafeRun(run, i);
    SafeIsRight(run, i, p);
  }

  lemma FromLeadersAgree(run: seq<State>, a: seq<Entry>, b: seq<Entry>)
    requires IsRunBy(run, Checked) && FromLeaders(run, a) && FromLeaders(run, b)
    requires a != [] && b != [] && a[0] == b[0] == SENTINEL
    ensures a <= b || b <= a
  {
    if a != [SENTINEL] && b != [SENTINEL] {
      var x: nat, g: Goal :| CommitsAt(run, x, g) && a <= Committed(run[x], g);
      var y: nat, h: Goal :| CommitsAt(run, y, h) && b <= Committed(run[y], h);
      CommitsAgree(run, x, g, y, h);
    }
  }

  lemma StartsWithSentinel(run: seq<State>, i: nat, p: nat)
    requires IsRunBy(run, Checked) && i < |run| && p < |run[i].servers| && PartRight(run, run[i].servers[p])
    ensures Part(run[i].servers[p])[0] == SENTINEL
  {
    SentinelStays(run, i, p);
  }

  /** So what any two servers have committed, at any two times, agrees. */
  lemma ServersAgree(run: seq<State>, i: nat, p: nat, j: nat, q: nat)
    requires IsRunBy(run, Strict) && i < |run| && p < |run[i].servers| && j < |run| && q < |run[j].servers|
    ensures PartRight(run, run[i].servers[p]) && PartRight(run, run[j].servers[q])
    ensures var a, b := Part(run[i].servers[p]), Part(run[j].servers[q]);
            a <= b || b <= a
  {
    StrictIsChecked(run);
    StateMachineSafety(run, i, p);
    StateMachineSafety(run, j, q);
    StartsWithSentinel(run, i, p);
    StartsWithSentinel(run, j, q);
    FromLeadersAgree(run, Part(run[i].servers[p]), Part(run[j].servers[q]));
  }

  lemma IndexGrows(run: seq<State>, i: nat, a: Action, p: nat)
    requires IsRunBy(run, Checked) && i + 1 < |run| && Enabled(run[i], a) && run[i + 1] == Do(run[i], a)
    requires ServerSafe(run, i, p)
    ensures p < |run[i + 1].servers| && run[i].servers[p].commitIndex <= run[i + 1].servers[p].commitIndex
  {
    IndexStep(run[i], a, p);
    PartStays(run, i, a, p);
    if a.Deliver? && a.env.to == p && Raises(run[i].servers[p], a.env.args) {
      RaisedPart(run, i, a.env);
    }
  }

  lemma {:induction false} ChainPrefix(parts: seq<seq<Entry>>, i: nat, j: nat)
    requires i <= j < |parts| && forall k :: 0 <= k < |parts| - 1 ==> parts[k] <= parts[k + 1]
    ensures parts[i] <= parts[j]
    decreases j - i
  {
    if i < j {
      ChainPrefix(parts, i, j - 1);
      assert parts[j - 1] <= parts[j - 1 + 1];
    }
  }

  ghost function PartAt(s: State, p: nat): seq<Entry> {
    if p < |s.servers| && 0 <= s.servers[p].commitIndex < |s.servers[p].log| then Part(s.servers[p]) else []
  }

  /** And no server ever gives up an entry it has committed. */
  lemma NothingUncommitted(run: seq<State>, i: nat, j: nat, p: nat)
    requires IsRunBy(run, Strict) && i <= j < |run| && p < |run[i].servers|
    ensures p < |run[j].servers| && PartRight(run, run[i].servers[p]) && PartRight(run, run[j].servers[p])
    ensures Part(run[i].servers[p]) <= Part(run[j].servers[p])
  {
    var parts := seq(|run|, k requires 0 <= k < |run| => PartAt(run[k], p));
    forall k | 0 <= k < |parts| - 1 ensures parts[k] <= parts[k + 1] {
      if p < |run[k].servers| {
        NextKeeps(run, k, p);
      }
    }
    ChainPrefix(parts, i, j);
    SameCount(run, i, j);
    StateMachineSafety(run, i, p);
    StateMachineSafety(run, j, p);
  }

  lemma SameCount(run: seq<State>, i: nat, j: nat)
    requires IsRunBy(run, Strict) && i <= j < |run|
    ensures |run[i].servers| == |run[j].servers|
  {
    StrictIsChecked(run);
    RunByIsRun(run, Checked);
    Accumulate(run, i, j);
  }

  lemma NextKeeps(run: seq<State>, i: nat, p: nat)
    requires IsRunBy(run, Strict) && i + 1 < |run| && p < |run[i].servers|
    ensures p < |run[i + 1].servers| && PartRight(run, run[i].servers[p]) && PartRight(run, run[i + 1].servers[p])
    ensures Part(run[i].servers[p]) <= Part(run[i + 1].servers[p])
  {
    StrictIsChecked(run);
    SafeRun(run, i);
    assert ServerSafe(run, i, p);
    assert NextBy(run[i], run[i + 1], Strict);
    var a :| Enabled(run[i], a) && Strict(run[i], a) && run[i + 1] == Do(run[i], a);
    PartStays(run, i, a, p);
    IndexGrows(run, i, a, p);
    StateMachineSafety(run, i, p);
    StateMachineSafety(run, i + 1, p);
  }

  // --- Exactly ---

  ghost predicate AllRight(run: seq<State>)
    requires run != []
  {
    forall p :: 0 <= p < |End(run).servers| ==> PartRight(run, End(run).servers[p])
  }

  lemma DiffersFromLeaders(run: seq<State>, l: seq<Entry>, part: seq<Entry>, n: nat)
    requires IsRunBy(run, Checked) && FromLeaders(run, l) && n < |l| && n < |part| && l[n] != part[n]
    requires l[0] == part[0] == SENTINEL
    ensures !FromLeaders(run, part)
  {
    if FromLeaders(run, part) {
      FromLeadersAgree(run, l, part);
    }
  }

  /** An astray delivery leaves the receiver's log, and the new commit index at an entry the sender does not have. */
  lemma AstrayLog(run: seq<State>, i: nat, env: Envelope)
    requires IsRunBy(run, Checked) && i < |run| && Enabled(run[i], Deliver(env))
    requires 0 <= run[i].servers[env.to].commitIndex && env.args.leaderCommit < |env.log|
    requires Raises(run[i].servers[env.to], env.args) && GoesAstray(run[i].servers[env.to], env)
    ensures var f := AppendEntries(run[i].servers[env.to], env.args).s;
            && 1 <= f.commitIndex < |f.log| && f.commitIndex <= env.args.leaderCommit
            && f.log[f.commitIndex] != env.log[f.commitIndex]
            && f.log[0] == SENTINEL && env.log[0] == SENTINEL
  {
    PrefixRun(run, i);
    Delivered(run[..i + 1], env);
    RaisedPart(run, i, env);
    WellIndexedLast(run[..i + 1], env);
    assert env.covered[0] == env.log[0];
  }

  /** A delivery that leads its receiver astray makes it commit what no leader has. */
  lemma AstrayIsWrong(run: seq<State>, i: nat, env: Envelope)
    requires IsRunBy(run, Checked) && i + 1 < |run| && Enabled(run[i], Deliver(env))
    requires run[i + 1] == Do(run[i], Deliver(env)) && ServerSafe(run, i, env.to) && MessageSafe(run, i, env)
    requires Raises(run[i].servers[env.to], env.args) && GoesAstray(run[i].servers[env.to], env)
    ensures env.to < |run[i + 1].servers| && !PartRight(run, run[i + 1].servers[env.to])
  {
    var f := AppendEntries(run[i].servers[env.to], env.args).s;
    var l := env.log[..env.args.leaderCommit + 1];
    AstrayLog(run, i, env);
    MessageFromLeaders(run, i, env);
    DiffersFromLeaders(run, l, Part(f), f.commitIndex);
  }

  lemma MessageFromLeaders(run: seq<State>, i: nat, env: Envelope)
    requires i < |run| && MessageSafe(run, i, env)
    ensures FromLeaders(run, env.log[..env.args.leaderCommit + 1])
  {
  }

  /** Exactly: after a strict run, a step by elected leaders and kept votes leaves every server with nothing
      committed but what leaders committed, if and only if it is no delivery that leads its receiver astray. */
  lemma SafetyStepExactly(run: seq<State>, a: Action, run': seq<State>)
    requires IsRunBy(run, Strict) && Enabled(End(run), a) && Checked(End(run), a) && run' == run + [Do(End(run), a)]
    ensures AllRight(run') <==> StaysOnCourse(End(run), a)
  {
    var i := |run| - 1;
    Longer(run, a, run');
    SafeUpTo(run', i, i);
    if StaysOnCourse(End(run), a) {
      OnCourseIsRight(run', i, a);
    } else {
      OffCourseIsWrong(run', i, a);
    }
  }

  lemma OnCourseIsRight(run: seq<State>, i: nat, a: Action)
    requires IsRunBy(run, Checked) && i + 2 == |run| && Enabled(run[i], a) && run[i + 1] == Do(run[i], a)
    requires ServersSafe(run, i) && MessagesSafe(run, i) && StaysOnCourse(run[i], a)
    ensures AllRight(run)
  {
    SameServers(run[i], a);
    forall p: nat | p < |End(run).servers| ensures PartRight(run, End(run).servers[p]) {
      assert ServerSafe(run, i, p);
      if a.Deliver? && a.env.to == p && Raises(run[i].servers[p], a.env.args) {
        RaisedFromLeaders(run, i, a.env);
      } else {
        ServerSafeStep(run, i, a, p);
        SafeIsRight(run, i + 1, p);
      }
    }
  }

  /** A raising delivery on course leaves what leaders committed, whatever term the message carries. */
  lemma RaisedFromLeaders(run: seq<State>, i: nat, env: Envelope)
    requires IsRunBy(run, Checked) && i < |run| && Enabled(run[i], Deliver(env))
    requires ServerSafe(run, i, env.to) && MessageSafe(run, i, env)
    requires Raises(run[i].servers[env.to], env.args) && !GoesAstray(run[i].servers[env.to], env)
    ensures PartRight(run, AppendEntries(run[i].servers[env.to], env.args).s)
  {
    var f := AppendEntries(run[i].servers[env.to], env.args).s;
    RaisedPart(run, i, env);
    AgreesIsPrefix(f, env.log, env.args.leaderCommit);
    CommittedLater(run, i, i, env.log[..env.args.leaderCommit + 1], Part(f), env.sentIn, env.sentIn);
  }

  lemma OffCourseIsWrong(run: seq<State>, i: nat, a: Action)
    requires IsRunBy(run, Checked) && i + 2 == |run| && Enabled(run[i], a) && run[i + 1] == Do(run[i], a)
    requires ServersSafe(run, i) && MessagesSafe(run, i) && !StaysOnCourse(run[i], a)
    ensures !AllRight(run)
  {
    assert ServerSafe(run, i, a.env.to) && MessageSafe(run, i, a.env);
    AstrayIsWrong(run, i, a.env);
    assert !PartRight(run, End(run).servers[a.env.to]);
  }

  lemma Longer(run: seq<State>, a: Action, run': seq<State>)
    requires IsRunBy(run, Strict) && Enabled(End(run), a) && Checked(End(run), a) && run' == run + [Do(End(run), a)]
    ensures StrictUpTo(run', |run| - 1)
  {
    StrictIsChecked(run);
    forall j | 0 <= j < |run'| - 1 ensures NextBy(run'[j], run'[j + 1], Checked) {
      if j < |run| - 1 {
        assert NextBy(run[j], run[j + 1], Checked);
      }
    }
    forall j | 0 <= j < |run| - 1 ensures NextBy(run'[j], run'[j + 1], Strict) {
      assert NextBy(run[j], run[j + 1], Strict);
    }
  }
}
