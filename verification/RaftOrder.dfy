/** The order of terms in Raft logs, in runs where votes are kept and leaders lead the term they won: although a
    sender that lost its lead may pass on newer entries under its old term, no log's terms ever decrease. */
module RaftOrder {
  import Tallies
  import opened RaftServer
  import opened RaftSystem
  import opened RaftCommit
  import opened RaftElection

  ghost predicate Asked(s: State, i: nat, term: int) {
    exists m :: m in s.requests && m.from == i && m.args.term == term
  }

  /** A request speaks for its candidate's log until someone leads the term. */
  ghost predicate RequestRight(s: State, m: VoteRequestMsg) {
    && m.from < |s.servers| && m.args.term <= s.servers[m.from].currentTerm
    && (s.servers[m.from].currentTerm == m.args.term && !TermLed(s, m.args.term) ==>
          var log := s.servers[m.from].log;
          log != [] && m.args.lastLogIndex == |log| - 1 && m.args.lastLogTerm == Last(log).term)
  }

  ghost predicate RequestsRight(s: State) {
    && (forall m :: m in s.requests ==> RequestRight(s, m))
    && (forall v :: v in s.votes ==> Asked(s, v.candidate, v.term))
  }

  ghost predicate UpTo(l: seq<Entry>, term: int) {
    forall k :: 0 <= k < |l| ==> l[k].term <= term
  }

  /** A leader's log has no entry of a later term. */
  ghost predicate NoneLater(s: State) {
    forall d :: d in s.leaders && d.server < |s.servers| && s.servers[d.server].currentTerm == d.term ==>
      UpTo(s.servers[d.server].log, d.term)
  }

  ghost predicate Sorted(l: seq<Entry>) {
    forall i, j :: 0 <= i < j < |l| ==> l[i].term <= l[j].term
  }

  ghost predicate AllSorted(s: State) {
    forall h :: h in s.held ==> Sorted(h.log)
  }

  /** Entries of one term start at the same position in all logs. */
  ghost predicate SameBlocks(a: seq<Entry>, b: seq<Entry>) {
    forall i, j :: 1 <= i <= j && i < |a| && j < |b| && a[i].term == b[j].term ==> b[i].term == a[i].term
  }

  ghost predicate AllBlocks(s: State) {
    forall g, h :: g in s.held && h in s.held ==> SameBlocks(g.log, h.log)
  }

  /** The servers that voted in a later term and not for the candidate in its own: they never will. */
  ghost function Lost(s: State, i: nat, later: int): set<nat>
    requires i < |s.servers|
  {
    set w: nat | w < |s.servers| && HasVoted(s, w, later) && Vote(w, s.servers[i].currentTerm, i) !in s.votes
  }

  /** A candidate with an entry of a later term has lost a majority. */
  ghost predicate Doomed(s: State, i: nat, k: nat)
    requires i < |s.servers|
  {
    var srv := s.servers[i];
    Asked(s, i, srv.currentTerm) && !TermLed(s, srv.currentTerm)
    && k < |srv.log| && srv.log[k].term > srv.currentTerm ==>
      2 * |Lost(s, i, srv.log[k].term)| > |s.servers|
  }

  ghost predicate AllDoomed(s: State) {
    && (forall i :: 0 <= i < |s.servers| ==> s.servers[i].currentTerm >= 0)
    && forall i: nat, k: nat {:trigger Doomed(s, i, k)} :: i < |s.servers| ==> Doomed(s, i, k)
  }

  /** What the election theory gives in every run that keeps to its conditions. */
  ghost predicate Elected(s: State) {
    LogInv(s) && CommitInv(s) && OneLeader(s) && VoteInv(s) && LeadersElected(s)
  }

  ghost predicate OrderInv(s: State) {
    RequestsRight(s) && NoneLater(s) && AllSorted(s) && AllBlocks(s) && AllDoomed(s)
  }

  // --- Requests ---

  lemma LedStays(s: State, a: Action, term: int)
    requires Enabled(s, a) && TermLed(s, term)
    ensures TermLed(Do(s, a), term)
  {
    var d :| d in s.leaders && d.term == term;
    assert d in Do(s, a).leaders;
  }

  /** Who can change a server's log: a leader of its term, by a message, or the server itself, leading. */
  ghost predicate LogMoves(s: State, a: Action, i: nat)
    requires i < |s.servers|
  {
    || (a.StartCommand? && a.i == i && Leadership(s.servers[i].currentTerm, i) in s.leaders)
    || (a.Deliver? && a.env.to == i && a.env.from != i && a.env.task.Replicate? && a.env in s.appends
        && Leadership(a.env.args.term, a.env.from) in s.leaders)
  }

  lemma ServerStep(s: State, a: Action, i: nat)
    requires LogInv(s) && Enabled(s, a) && i < |s.servers|
    ensures |Do(s, a).servers| == |s.servers|
    ensures var srv, srv' := s.servers[i], Do(s, a).servers[i];
            && srv.currentTerm <= srv'.currentTerm
            && (srv'.log == srv.log || LogMoves(s, a, i))
            && (LogMoves(s, a, i) && a.StartCommand? ==>
                  && srv'.currentTerm == srv.currentTerm
                  && srv'.log == srv.log + [Entry(srv.currentTerm, |srv.log|, a.command)])
            && (LogMoves(s, a, i) && a.Deliver? ==> srv'.currentTerm == Max(srv.currentTerm, a.env.args.term))
            && (LogMoves(s, a, i) && a.Deliver? && a.env.args.term < srv.currentTerm ==> srv'.log == srv.log)
  {
    match a
    case Deliver(env) =>
      AppendEffect(s.servers[env.to], env.args);
    case StartCommand(j, _) =>
    case Lead(_, _) =>
    case Send(_, _, _, _) =>
    case _ =>
      QuietActions(s, a);
      assert QuietServer(s.servers[i], Do(s, a).servers[i]);
  }

  lemma AppendEffect(f: Server, a: AppendArgs)
    requires f.log != []
    ensures var f' := AppendEntries(f, a).s;
            && f'.currentTerm == Max(f.currentTerm, a.term)
            && (a.term < f.currentTerm || a.entries == [] ==> f'.log == f.log)
  {
  }

  /** While nobody leads a server's term, its log does not change in that term. */
  lemma LogFixed(s: State, a: Action, i: nat)
    requires LogInv(s) && Enabled(s, a) && i < |s.servers|
    ensures |Do(s, a).servers| == |s.servers| && s.servers[i].currentTerm <= Do(s, a).servers[i].currentTerm
    ensures var srv, srv' := s.servers[i], Do(s, a).servers[i];
            srv'.currentTerm == srv.currentTerm && !TermLed(s, srv.currentTerm) ==> srv'.log == srv.log
  {
    ServerStep(s, a, i);
  }

  lemma RequestsStep(s: State, a: Action)
    requires LogInv(s) && VotesRight(s) && RequestsRight(s) && Enabled(s, a)
    ensures RequestsRight(Do(s, a))
  {
    var s' := Do(s, a);
    forall m | m in s'.requests ensures RequestRight(s', m) {
      if m in s.requests {
        assert RequestRight(s, m);
        LogFixed(s, a, m.from);
        if TermLed(s, m.args.term) {
          LedStays(s, a, m.args.term);
        }
      } else {
        assert WellIndexed(s.servers[a.i].log);
      }
    }
    forall v | v in s'.votes ensures Asked(s', v.candidate, v.term) {
      if v in s.votes {
        assert Asked(s, v.candidate, v.term);
      }
    }
  }

  /** A server asks in its term only if it stood in it. */
  lemma AskedBefore(s: State, a: Action, i: nat)
    requires LogInv(s) && RequestsRight(s) && Enabled(s, a) && i < |s.servers| && a != Timeout(i)
    requires Asked(Do(s, a), i, Do(s, a).servers[i].currentTerm)
    ensures Do(s, a).servers[i].currentTerm == s.servers[i].currentTerm && Asked(s, i, s.servers[i].currentTerm)
  {
    var s' := Do(s, a);
    LogFixed(s, a, i);
    var m :| m in s'.requests && m.from == i && m.args.term == s'.servers[i].currentTerm;
    assert m in s.requests && RequestRight(s, m);
  }

  // --- Candidates with entries of later terms ---

  /** The voters of a leader, in every state. */
  lemma LeaderVoters(s: State, term: int) returns (ws: set<nat>)
    requires VoteInv(s) && LeadersElected(s) && TermLed(s, term)
    ensures 2 * |ws| > |s.servers| && forall w :: w in ws ==> w < |s.servers| && HasVoted(s, w, term)
  {
    var d :| d in s.leaders && d.term == term;
    var votes := Counted(s, d.server, term);
    VotersCount(votes);
    ws := Voters(votes);
    forall w | w in ws ensures w < |s.servers| && HasVoted(s, w, term) {
      var v: Vote :| v in votes && v.voter == w;
      assert v in s.votes && Remembered(s, v);
    }
  }

  /** A vote is for a term its candidate has reached. */
  lemma VotesBehind(s: State)
    requires RequestsRight(s)
    ensures forall v :: v in s.votes ==> v.candidate < |s.servers| && v.term <= s.servers[v.candidate].currentTerm
  {
    forall v | v in s.votes ensures v.candidate < |s.servers| && v.term <= s.servers[v.candidate].currentTerm {
      assert Asked(s, v.candidate, v.term);
      var m :| m in s.requests && m.from == v.candidate && m.args.term == v.term;
      assert RequestRight(s, m);
    }
  }

  lemma LostAtStand(s: State, i: nat, w: nat, later: int)
    requires VotesRight(s) && RequestsRight(s) && Enabled(s, Timeout(i))
    requires w < |s.servers| && HasVoted(s, w, later) && later > s.servers[i].currentTerm + 1
    ensures w in Lost(Do(s, Timeout(i)), i, later)
  {
    var s' := Do(s, Timeout(i));
    var term := s'.servers[i].currentTerm;
    var v :| v in s.votes && v.voter == w && v.term == later;
    assert Remembered(s, v) && v in s'.votes;
    VotesBehind(s);
    assert Vote(w, term, i) !in s.votes;
  }

  lemma StandsDoomed(s: State, i: nat, k: nat)
    requires Elected(s) && OrderInv(s) && Enabled(s, Timeout(i))
    ensures Doomed(Do(s, Timeout(i)), i, k)
  {
    var s' := Do(s, Timeout(i));
    var log, term := s.servers[i].log, s'.servers[i].currentTerm;
    if k < |log| && log[k].term > term {
      assert Held(i, log) in s.held && Origin(s, log);
      assert k >= 1;
      var later := log[k].term;
      var ws := LeaderVoters(s, later);
      forall w | w in ws ensures w in Lost(s', i, later) {
        LostAtStand(s, i, w, later);
      }
      Tallies.SubsetSize(ws, Lost(s', i, later));
    }
  }

  /** A server that voted in a later term grants nothing in the candidate's. */
  lemma LostStays(s: State, a: Action, i: nat, later: int)
    requires VotesRight(s) && Enabled(s, a) && i < |s.servers| && |Do(s, a).servers| == |s.servers|
    requires Do(s, a).servers[i].currentTerm == s.servers[i].currentTerm < later
    ensures Lost(s, i, later) <= Lost(Do(s, a), i, later)
  {
    var s' := Do(s, a);
    forall w | w in Lost(s, i, later) ensures w in Lost(s', i, later) {
      var v :| v in s.votes && v.voter == w && v.term == later;
      assert Remembered(s, v) && v in s'.votes;
    }
  }

  lemma DoomedStep(s: State, a: Action, i: nat, k: nat)
    requires Elected(s) && OrderInv(s) && Enabled(s, a) && i < |s.servers| && a != Timeout(i)
    ensures |Do(s, a).servers| == |s.servers| && Doomed(Do(s, a), i, k)
  {
    var s' := Do(s, a);
    LogFixed(s, a, i);
    var term := s'.servers[i].currentTerm;
    if Asked(s', i, term) && !TermLed(s', term) {
      AskedBefore(s, a, i);
      if TermLed(s, term) {
        LedStays(s, a, term);
      } else if k < |s.servers[i].log| && s.servers[i].log[k].term > term {
        assert Doomed(s, i, k);
        LostStays(s, a, i, s.servers[i].log[k].term);
        Tallies.SubsetSize(Lost(s, i, s.servers[i].log[k].term), Lost(s', i, s.servers[i].log[k].term));
      }
    }
  }

  lemma AllDoomedStep(s: State, a: Action)
    requires Elected(s) && OrderInv(s) && Enabled(s, a)
    ensures AllDoomed(Do(s, a))
  {
    var s' := Do(s, a);
    forall i | 0 <= i < |s'.servers| ensures s'.servers[i].currentTerm >= 0 {
      LogFixed(s, a, i);
    }
    forall i: nat, k: nat | i < |s'.servers| ensures Doomed(s', i, k) {
      if a == Timeout(i) {
        StandsDoomed(s, i, k);
      } else {
        DoomedStep(s, a, i, k);
      }
    }
  }

  /** So a server that wins has no entry of a later term. */
  lemma WinnerHasNoneLater(s: State, i: nat, k: nat)
    requires VoteInv(s) && RequestsRight(s) && AllDoomed(s) && i < |s.servers| && k < |s.servers[i].log|
    requires 2 * |Counted(s, i, s.servers[i].currentTerm)| > |s.servers| && !TermLed(s, s.servers[i].currentTerm)
    ensures s.servers[i].log[k].term <= s.servers[i].currentTerm
  {
    var term, later := s.servers[i].currentTerm, s.servers[i].log[k].term;
    var votes := Counted(s, i, term);
    var v0 :| v0 in votes;
    assert v0 in s.votes && Asked(s, i, term);
    assert Doomed(s, i, k);
    VotersCount(votes);
    forall w | w in Voters(votes) ensures w < |s.servers| && w !in Lost(s, i, later) {
      var v: Vote :| v in votes && v.voter == w;
      assert v in s.votes && Remembered(s, v);
    }
    ApartCount(Voters(votes), Lost(s, i, later), |s.servers|);
  }

  lemma ApartCount(a: set<nat>, b: set<nat>, n: nat)
    requires a !! b && forall x :: x in a + b ==> x < n
    ensures |a| + |b| <= n
  {
    BelowCount(a + b, n);
    assert |a + b| == |a| + |b|;
  }

  lemma NoneLaterStep(s: State, a: Action)
    requires Elected(s) && OrderInv(s) && Enabled(s, a) && LeadsWonTerm(s, a) && OneLeader(Do(s, a))
    ensures NoneLater(Do(s, a))
  {
    var s' := Do(s, a);
    forall d | d in s'.leaders && d.server < |s'.servers| && s'.servers[d.server].currentTerm == d.term
      ensures UpTo(s'.servers[d.server].log, d.term)
    {
      LeaderUpTo(s, a, d);
    }
  }

  /** While a leader stays in its term its log changes only by its own new entries. */
  lemma LeaderExtends(s: State, a: Action, d: Leadership)
    requires LogInv(s) && OneLeader(s) && Enabled(s, a) && d in s.leaders && |Do(s, a).servers| == |s.servers|
    requires d.server < |s.servers| && Do(s, a).servers[d.server].currentTerm == d.term
    ensures s.servers[d.server].currentTerm == d.term
    ensures var log, log' := s.servers[d.server].log, Do(s, a).servers[d.server].log;
            log' == log || (log' != [] && log' == log + [Last(log')] && Last(log').term == d.term)
  {
    assert d.term <= s.servers[d.server].currentTerm;
    ServerStep(s, a, d.server);
  }

  lemma LeaderUpTo(s: State, a: Action, d: Leadership)
    requires Elected(s) && OrderInv(s) && Enabled(s, a) && LeadsWonTerm(s, a) && OneLeader(Do(s, a))
    requires d in Do(s, a).leaders && d.server < |s.servers| && |Do(s, a).servers| == |s.servers|
    requires Do(s, a).servers[d.server].currentTerm == d.term
    ensures UpTo(Do(s, a).servers[d.server].log, d.term)
  {
    if d in s.leaders {
      LeaderExtends(s, a, d);
      assert UpTo(s.servers[d.server].log, d.term);
    } else {
      NewLeader(s, a, d);
      forall k | 0 <= k < |s.servers[d.server].log| ensures s.servers[d.server].log[k].term <= d.term {
        WinnerHasNoneLater(s, d.server, k);
      }
    }
  }

  lemma NewLeader(s: State, a: Action, d: Leadership)
    requires Enabled(s, a) && LeadsWonTerm(s, a) && OneLeader(Do(s, a)) && d in Do(s, a).leaders && d !in s.leaders
    ensures a.Lead? && a.i == d.server < |s.servers| && s.servers[d.server].currentTerm == d.term && !TermLed(s, d.term)
    ensures 2 * |Counted(s, d.server, d.term)| > |s.servers|
    ensures Do(s, a).servers[d.server].log == s.servers[d.server].log
  {
    forall e | e in s.leaders ensures e.term != d.term {
      assert e in Do(s, a).leaders && d in Do(s, a).leaders;
    }
  }

  // --- Logs ---

  /** A step leaves the held logs alone, or adds a known log, or a leader's log with a new entry of its term. */
  lemma HeldStep(s: State, a: Action, h: Held)
    requires LogInv(s) && Enabled(s, a) && h in Do(s, a).held && h !in s.held
    ensures Known(s, h.log) || (a.StartCommand? && h == Held(a.i, Start(s.servers[a.i], a.command).log))
  {
    if a.Deliver? {
      DeliveredLog(s, a.env);
    }
  }

  lemma StartSorted(s: State, i: nat, command: string)
    requires LogInv(s) && NoneLater(s) && AllSorted(s) && Enabled(s, StartCommand(i, command))
    ensures Sorted(Start(s.servers[i], command).log)
  {
    assert Held(i, s.servers[i].log) in s.held;
    assert Leadership(s.servers[i].currentTerm, i) in s.leaders;
    assert UpTo(s.servers[i].log, s.servers[i].currentTerm);
  }

  lemma SortedStep(s: State, a: Action)
    requires LogInv(s) && NoneLater(s) && AllSorted(s) && Enabled(s, a)
    ensures AllSorted(Do(s, a))
  {
    forall h | h in Do(s, a).held ensures Sorted(h.log) {
      if h !in s.held {
        HeldStep(s, a, h);
        if Known(s, h.log) {
          var g :| g in s.held && h.log <= g.log;
          assert Sorted(g.log);
        } else {
          StartSorted(s, a.i, a.command);
        }
      }
    }
  }

  /** A new entry starts or continues its term's block. */
  lemma StartBlocks(s: State, i: nat, command: string, h: Held)
    requires LogInv(s) && AllBlocks(s) && Enabled(s, StartCommand(i, command)) && h in s.held
    ensures var l := Start(s.servers[i], command).log;
            SameBlocks(l, h.log) && SameBlocks(h.log, l)
  {
    var srv := s.servers[i];
    assert Held(i, srv.log) in s.held;
    forall k | 1 <= k < |h.log| && h.log[k].term == srv.currentTerm
      ensures k < |srv.log| && srv.log[k].term == srv.currentTerm
    {
      assert Leadership(srv.currentTerm, i) in s.leaders;
      assert Origin(s, h.log) && LeaderReaches(s, srv.currentTerm, k);
    }
    BlocksAppend(srv.log, h.log, Entry(srv.currentTerm, |srv.log|, command));
  }

  lemma BlocksAppend(l: seq<Entry>, h: seq<Entry>, e: Entry)
    requires SameBlocks(l, h) && SameBlocks(h, l) && l != []
    requires forall k :: 1 <= k < |h| && h[k].term == e.term ==> k < |l| && l[k].term == e.term
    ensures SameBlocks(l + [e], h) && SameBlocks(h, l + [e])
  {
  }

  lemma PrefixBlocks(a: seq<Entry>, b: seq<Entry>, p: seq<Entry>)
    requires SameBlocks(a, b) && SameBlocks(b, a) && p <= b
    ensures SameBlocks(a, p) && SameBlocks(p, a)
  {
    assert forall i :: 0 <= i < |p| ==> p[i] == b[i];
  }

  lemma NewBlocks(s: State, a: Action, g: Held, h: Held)
    requires LogInv(s) && AllBlocks(s) && Enabled(s, a) && g in Do(s, a).held && g !in s.held && h in s.held
    ensures SameBlocks(g.log, h.log) && SameBlocks(h.log, g.log)
  {
    HeldStep(s, a, g);
    if Known(s, g.log) {
      var f :| f in s.held && g.log <= f.log;
      PrefixBlocks(h.log, f.log, g.log);
    } else {
      StartBlocks(s, a.i, a.command, h);
    }
  }

  lemma BlocksStep(s: State, a: Action)
    requires LogInv(s) && AllBlocks(s) && Enabled(s, a)
    ensures AllBlocks(Do(s, a))
  {
    var s' := Do(s, a);
    forall g, h | g in s'.held && h in s'.held ensures SameBlocks(g.log, h.log) {
      if g !in s.held && h in s.held {
        NewBlocks(s, a, g, h);
      } else if g in s.held && h !in s.held {
        NewBlocks(s, a, h, g);
      } else if g !in s.held && h !in s.held {
        assert g == h;
      }
    }
  }

  lemma OrderStep(s: State, a: Action)
    requires Elected(s) && OrderInv(s) && Enabled(s, a) && LeadsWonTerm(s, a) && OneLeader(Do(s, a))
    ensures OrderInv(Do(s, a))
  {
    RequestsStep(s, a);
    NoneLaterStep(s, a);
    SortedStep(s, a);
    BlocksStep(s, a);
    AllDoomedStep(s, a);
  }

  lemma {:induction false} OrderRun(run: seq<State>, i: nat)
    requires IsRunBy(run, Checked) && i < |run|
    ensures Elected(run[i]) && OrderInv(run[i])
  {
    RunByIsRun(run, Checked);
    CheckedRun(run, |run| - 1);
    CheckedRun(run, i);
    CommitInvRun(run, i);
    if i > 0 {
      OrderRun(run, i - 1);
      assert NextBy(run[i - 1], run[i - 1 + 1], Checked);
      var a :| Enabled(run[i - 1], a) && Checked(run[i - 1], a) && run[i] == Do(run[i - 1], a);
      OrderStep(run[i - 1], a);
    }
  }

  /** In every such run, the terms in every log held by a server, then or earlier, never decrease. */
  lemma TermsNeverDecrease(run: seq<State>, h: Held)
    requires IsRunBy(run, Checked) && h in End(run).held
    ensures Sorted(h.log)
  {
    OrderRun(run, |run| - 1);
  }
}
