/** A cluster of Raft servers exchanging messages that may be lost, repeated, delayed and
    reordered: Log Matching, and what a commit means. */
module RaftSystem {
  import opened RaftServer

  /** Why an append was sent: a heartbeat, or the goroutine that replicates the entry at index. */
  datatype Task = Heartbeat | Replicate(index: int)

  /** An AppendEntries message. Recorded to reason about what it was cut from: the term the sender was in, its log,
      and covered, that log up to the last entry the message speaks about. */
  datatype Envelope = Envelope(from: nat, to: nat, args: AppendArgs, sentIn: int, log: seq<Entry>, covered: seq<Entry>,
                               task: Task)
  datatype AppendAnswer = AppendAnswer(env: Envelope, reply: AppendReply)

  datatype Vote = Vote(voter: nat, term: int, candidate: nat)
  datatype VoteRequestMsg = VoteRequestMsg(from: nat, args: VoteArgs)
  datatype VoteAnswer = VoteAnswer(vote: Vote, reply: VoteReply)

  datatype Leadership = Leadership(term: int, server: nat)

  /** tryToCommit(term, index) running at a server, and a peer it counted. */
  datatype Goal = Goal(server: nat, term: int, index: int)
  datatype Ack = Ack(goal: Goal, peer: nat)

  datatype Held = Held(server: nat, log: seq<Entry>)

  /** Message sets only grow, so any message may arrive any number of times or never. Besides the
      servers and messages: votes granted and counted, who ever led which term, all logs ever
      held, the replication goals and the peers each has counted. */
  datatype State = State(servers: seq<Server>,
                         requests: set<VoteRequestMsg>, answers: set<VoteAnswer>, votes: set<Vote>, tally: set<Vote>,
                         appends: set<Envelope>, replies: set<AppendAnswer>,
                         leaders: set<Leadership>, held: set<Held>, goals: set<Goal>, acks: set<Ack>)

  datatype Action =
    | Timeout(i: nat)
    | HandleVote(j: nat, m: VoteRequestMsg)
    | CountVote(v: VoteAnswer)
    | Lead(i: nat, won: int)
    | StartCommand(i: nat, command: string)
    | Send(i: nat, term: int, peer: nat, task: Task)
    | Deliver(env: Envelope)
    | HandleReply(r: AppendAnswer)
    | Commit(g: Goal)

  ghost predicate Init(s: State) {
    && (forall i :: 0 <= i < |s.servers| ==>
          s.servers[i] == Server(i, 0, -1, Follower, [SENTINEL], 0, s.servers[i].nextIndex, s.servers[i].matchIndex)
          && |s.servers[i].nextIndex| == |s.servers[i].matchIndex| == |s.servers|)
    && s.requests == {} && s.answers == {} && s.votes == {} && s.tally == {} && s.appends == {} && s.replies == {}
    && s.leaders == {} && s.goals == {} && s.acks == {}
    && s.held == set i: nat | i < |s.servers| :: Held(i, [SENTINEL])
  }

  /** The votes a candidate has counted for a term, its own included. */
  ghost function Counted(s: State, i: nat, term: int): set<Vote> {
    set v | v in s.tally && v.candidate == i && v.term == term
  }

  ghost function Acked(s: State, g: Goal): set<Ack> {
    set k | k in s.acks && k.goal == g
  }

  /** A heartbeat carries whatever term its sender, a leader when it decided to send, is in when it reads it. Terms
      in between that the sender skipped are admitted too; nothing here depends on their absence. */
  ghost predicate HeartbeatTerm(s: State, i: nat, term: int) {
    && i < |s.servers| && term <= s.servers[i].currentTerm
    && exists d :: d in s.leaders && d.server == i && d.term <= term
  }

  ghost predicate Enabled(s: State, a: Action) {
    && (forall i :: 0 <= i < |s.servers| ==> s.servers[i].log != [])
    && match a
       case Timeout(i) => i < |s.servers|
       case HandleVote(j, m) => j < |s.servers| && m in s.requests && m.from != j
       case CountVote(v) => v in s.answers && v.vote.candidate < |s.servers|
       case Lead(i, won) => i < |s.servers| && 2 * |Counted(s, i, won)| > |s.servers|
       case StartCommand(i, _) => i < |s.servers| && s.servers[i].role == Leader
       case Send(i, term, peer, task) =>
         && i < |s.servers| && peer < |s.servers| && peer != i
         && peer < |s.servers[i].nextIndex| && 1 <= s.servers[i].nextIndex[peer] <= |s.servers[i].log|
         && (if task.Heartbeat? then HeartbeatTerm(s, i, term) else Goal(i, term, task.index) in s.goals)
       case Deliver(env) => env in s.appends && env.to < |s.servers|
       case HandleReply(r) =>
         r in s.replies && r.env.from < |s.servers| && r.env.to < |s.servers[r.env.from].nextIndex|
         && r.env.to < |s.servers[r.env.from].matchIndex|
       case Commit(g) =>
         g in s.goals && g.server < |s.servers| && 2 * (|Acked(s, g)| + 1) > |s.servers|
         && s.servers[g.server].currentTerm == g.term
  }

  /** The message a sender builds from its current log and nextIndex. */
  function Package(i: nat, srv: Server, term: int, peer: nat, task: Task): Envelope
    requires peer < |srv.nextIndex| && 1 <= srv.nextIndex[peer] <= |srv.log|
  {
    var prev := srv.nextIndex[peer] - 1;
    var covered := if task.Heartbeat? then srv.log[..prev + 1] else srv.log;
    Envelope(i, peer, AppendArgs(term, srv.me, prev, srv.log[prev].term, covered[prev + 1..], srv.commitIndex),
             srv.currentTerm, srv.log, covered, task)
  }

  /** How a sender takes the answer to one of its messages. */
  function TakeReply(srv: Server, r: AppendAnswer): Server
    requires r.env.to < |srv.nextIndex| && r.env.to < |srv.matchIndex|
  {
    var p := r.env.to;
    if r.reply.success then
      match r.env.task
      case Heartbeat => srv.(matchIndex := srv.matchIndex[p := Max(r.env.args.prevLogIndex, srv.matchIndex[p])])
      case Replicate(index) =>
        srv.(nextIndex := srv.nextIndex[p := Max(srv.nextIndex[p], index + 1)],
             matchIndex := srv.matchIndex[p := Max(srv.matchIndex[p], index)])
    else if r.reply.term > srv.currentTerm then StepDown(srv, r.reply.term)
    else srv.(nextIndex := srv.nextIndex[p := Max(srv.nextIndex[p] - 1, 1)])
  }

  ghost function Do(s: State, a: Action): State
    requires Enabled(s, a)
  {
    match a
    case Timeout(i) =>
      var c := BecomeCandidate(s.servers[i]);
      s.(servers := s.servers[i := c], requests := s.requests + {VoteRequestMsg(i, VoteRequest(c))},
         votes := s.votes + {Vote(i, c.currentTerm, i)}, tally := s.tally + {Vote(i, c.currentTerm, i)})
    case HandleVote(j, m) =>
      var r := RequestVote(s.servers[j], m.args);
      var v := Vote(j, m.args.term, m.from);
      s.(servers := s.servers[j := r.s], answers := s.answers + {VoteAnswer(v, r.reply)},
         votes := if r.reply.granted then s.votes + {v} else s.votes)
    case CountVote(v) =>
      var i := v.vote.candidate;
      var srv := if v.reply.term > s.servers[i].currentTerm then StepDown(s.servers[i], v.reply.term) else s.servers[i];
      s.(servers := s.servers[i := srv], tally := if v.reply.granted then s.tally + {v.vote} else s.tally)
    case Lead(i, _) =>
      s.(servers := s.servers[i := BecomeLeader(s.servers[i])],
         leaders := s.leaders + {Leadership(s.servers[i].currentTerm, i)})
    case StartCommand(i, command) =>
      var srv := Start(s.servers[i], command);
      s.(servers := s.servers[i := srv], held := s.held + {Held(i, srv.log)},
         goals := s.goals + {Goal(i, srv.currentTerm, |srv.log| - 1)})
    case Send(i, term, peer, task) =>
      s.(appends := s.appends + {Package(i, s.servers[i], term, peer, task)})
    case Deliver(env) =>
      var r := AppendEntries(s.servers[env.to], env.args);
      s.(servers := s.servers[env.to := r.s], replies := s.replies + {AppendAnswer(env, r.reply)},
         held := s.held + {Held(env.to, r.s.log)})
    case HandleReply(r) =>
      s.(servers := s.servers[r.env.from := TakeReply(s.servers[r.env.from], r)],
         acks := if r.reply.success && r.env.task.Replicate?
                 then s.acks + {Ack(Goal(r.env.from, r.env.args.term, r.env.task.index), r.env.to)} else s.acks)
    case Commit(g) =>
      var srv := s.servers[g.server];
      s.(servers := s.servers[g.server := srv.(commitIndex := Max(srv.commitIndex, g.index))])
  }

  ghost predicate Next(s: State, s': State) {
    exists a :: Enabled(s, a) && s' == Do(s, a)
  }

  ghost predicate IsRun(run: seq<State>) {
    && run != [] && Init(run[0])
    && forall i :: 0 <= i < |run| - 1 ==> Next(run[i], run[i + 1])
  }

  /** A step, and a run, all of whose actions satisfy a condition on the state they are taken in. */
  ghost predicate NextBy(s: State, s': State, ok: (State, Action) -> bool) {
    exists a :: Enabled(s, a) && ok(s, a) && s' == Do(s, a)
  }

  ghost predicate IsRunBy(run: seq<State>, ok: (State, Action) -> bool) {
    && run != [] && Init(run[0])
    && forall i :: 0 <= i < |run| - 1 ==> NextBy(run[i], run[i + 1], ok)
  }

  lemma RunByIsRun(run: seq<State>, ok: (State, Action) -> bool)
    requires IsRunBy(run, ok)
    ensures IsRun(run)
  {
    forall i | 0 <= i < |run| - 1 ensures Next(run[i], run[i + 1]) {
      assert NextBy(run[i], run[i + 1], ok);
      var a :| Enabled(run[i], a) && ok(run[i], a) && run[i + 1] == Do(run[i], a);
    }
  }

  ghost function End(run: seq<State>): State
    requires run != []
  {
    run[|run| - 1]
  }

  /** No term has had two leaders. */
  ghost predicate OneLeader(s: State) {
    forall a, b :: a in s.leaders && b in s.leaders && a.term == b.term ==> a.server == b.server
  }

  // --- What servers learn from each other's answers ---

  /** Whoever is asked for a vote or gets an append is afterwards in a term not behind the request's. */
  lemma RequestsTeach(s: State, a: Action)
    requires Enabled(s, a)
    ensures a.HandleVote? ==> Do(s, a).servers[a.j].currentTerm == Max(s.servers[a.j].currentTerm, a.m.args.term)
    ensures a.Deliver? ==>
              Do(s, a).servers[a.env.to].currentTerm == Max(s.servers[a.env.to].currentTerm, a.env.args.term)
  {
  }

  /** A candidate that counts an answer of a later term catches up with it and is a follower. */
  lemma VoteAnswersTeach(s: State, v: VoteAnswer)
    requires Enabled(s, CountVote(v))
    ensures var i := v.vote.candidate; var srv, srv' := s.servers[i], Do(s, CountVote(v)).servers[i];
            && srv'.currentTerm == Max(srv.currentTerm, v.reply.term)
            && (srv.currentTerm < v.reply.term ==> srv'.role == Follower && srv'.voteFor == -1)
            && (v.reply.granted ==> v.vote in Do(s, CountVote(v)).tally)
            && (forall u :: u in Do(s, CountVote(v)).tally && u !in s.tally ==> u == v.vote && v.reply.granted)
  {
  }

  /** An append that met a server in a later term deposes its sender: having taken the answer, whenever that is, the
      sender is in a term at least the receiver's at delivery and, unless it was there already, a follower. */
  lemma AnswerDeposes(s: State, env: Envelope, t: State, r: AppendAnswer)
    requires Enabled(s, Deliver(env)) && env.args.term < s.servers[env.to].currentTerm
    requires r == AppendAnswer(env, AppendEntries(s.servers[env.to], env.args).reply) && Enabled(t, HandleReply(r))
    ensures r in Do(s, Deliver(env)).replies
    ensures var met := s.servers[env.to].currentTerm;
            var srv, srv' := t.servers[env.from], Do(t, HandleReply(r)).servers[env.from];
            && srv'.currentTerm >= met
            && (srv.currentTerm < met ==> srv'.currentTerm == met && srv'.role == Follower && srv'.voteFor == -1)
            && srv'.log == srv.log && srv'.commitIndex == srv.commitIndex
  {
    AppendLaw(s.servers[env.to], env.args);
  }

  // --- The invariant ---

  ghost predicate ServersRight(s: State) {
    forall i :: 0 <= i < |s.servers| ==>
      && s.servers[i].me == i && WellIndexed(s.servers[i].log)
      && |s.servers[i].nextIndex| == |s.servers[i].matchIndex| == |s.servers|
      && Held(i, s.servers[i].log) in s.held
  }

  ghost predicate HeldRight(s: State) {
    forall h :: h in s.held ==> h.server < |s.servers| && WellIndexed(h.log)
  }

  /** Any two logs ever held match. */
  ghost predicate AllMatch(s: State) {
    forall g, h :: g in s.held && h in s.held ==> Matching(g.log, h.log)
  }

  /** The log is a prefix of one that was held. */
  ghost predicate Known(s: State, l: seq<Entry>) {
    exists h :: h in s.held && l <= h.log
  }

  ghost predicate AppendsRight(s: State) {
    forall e :: e in s.appends ==>
      && e.from < |s.servers| && e.to < |s.servers| && e.from != e.to
      && CutFrom(e.args, e.covered) && e.covered <= e.log && Known(s, e.log) && Known(s, e.covered)
      && (if e.task.Heartbeat? then e.args.entries == [] else Leadership(e.args.term, e.from) in s.leaders)
  }

  ghost predicate LeadersRight(s: State) {
    && (forall d :: d in s.leaders ==> d.server < |s.servers| && d.term <= s.servers[d.server].currentTerm)
    && (forall i :: 0 <= i < |s.servers| && s.servers[i].role == Leader ==>
          Leadership(s.servers[i].currentTerm, i) in s.leaders)
  }

  ghost predicate TermLed(s: State, term: int) {
    exists d :: d in s.leaders && d.term == term
  }

  /** Whoever leads the term, while still in it, has an entry of the term at position k. */
  ghost predicate LeaderReaches(s: State, term: int, k: nat) {
    forall d :: d in s.leaders && d.term == term && d.server < |s.servers|
                && s.servers[d.server].currentTerm == term ==>
      k < |s.servers[d.server].log| && s.servers[d.server].log[k].term == term
  }

  /** Every entry behind the sentinel comes from a leader of its term. */
  ghost predicate Origin(s: State, l: seq<Entry>) {
    forall k :: 1 <= k < |l| ==> TermLed(s, l[k].term) && LeaderReaches(s, l[k].term, k)
  }

  ghost predicate OriginsRight(s: State) {
    forall h :: h in s.held ==> Origin(s, h.log)
  }

  /** A replication goal belongs to a leader of its term and, while that server is in the term, names
      an entry of that term in its log. */
  ghost predicate GoalsRight(s: State) {
    forall g :: g in s.goals ==>
      && g.server < |s.servers| && Leadership(g.term, g.server) in s.leaders
      && var srv := s.servers[g.server];
         (srv.currentTerm == g.term ==> 1 <= g.index < |srv.log| && srv.log[g.index].term == g.term)
  }

  ghost predicate LogInv(s: State) {
    && ServersRight(s) && HeldRight(s) && AllMatch(s) && AppendsRight(s) && LeadersRight(s) && OriginsRight(s)
    && GoalsRight(s)
  }

  lemma MatchingPrefix(a: seq<Entry>, b: seq<Entry>, p: seq<Entry>)
    requires Matching(a, b) && p <= b
    ensures Matching(a, p) && Matching(p, a)
  {
    forall i | 0 <= i < |a| && i < |p| && a[i].term == p[i].term ensures a[..i + 1] == p[..i + 1] {
      assert b[i] == p[i] && b[..i + 1] == p[..i + 1];
    }
  }

  /** A known log is well formed, matches every held log, and its entries have their origin. */
  lemma KnownIsFine(s: State, l: seq<Entry>)
    requires HeldRight(s) && AllMatch(s) && Known(s, l) && l != []
    ensures WellIndexed(l)
    ensures forall h :: h in s.held ==> Matching(h.log, l) && Matching(l, h.log)
    ensures OriginsRight(s) ==> Origin(s, l)
  {
    var g :| g in s.held && l <= g.log;
    assert WellIndexed(g.log);
    assert forall i :: 0 <= i < |l| ==> l[i] == g.log[i];
    forall h | h in s.held ensures Matching(h.log, l) && Matching(l, h.log) {
      MatchingPrefix(h.log, g.log, l);
    }
  }

  /** What a delivery does to the receiver's log: nothing, or replace it by what the message covers. */
  lemma DeliveredLog(s: State, env: Envelope)
    requires ServersRight(s) && HeldRight(s) && AllMatch(s) && AppendsRight(s) && Enabled(s, Deliver(env))
    ensures var r := AppendEntries(s.servers[env.to], env.args);
            && (r.s.log == s.servers[env.to].log || r.s.log == env.covered)
            && (r.reply.success ==> env.covered <= r.s.log)
            && WellIndexed(env.covered) && Known(s, r.s.log)
  {
    KnownIsFine(s, env.covered);
    assert Held(env.to, s.servers[env.to].log) in s.held;
    AppendOutcome(s.servers[env.to], env.args, env.covered);
  }

  /** Adding a known log to the held ones keeps them matching. */
  lemma HoldKnown(s: State, s': State, i: nat, l: seq<Entry>)
    requires HeldRight(s) && AllMatch(s) && Known(s, l) && l != [] && i < |s.servers|
    requires s'.held == s.held + {Held(i, l)} && |s'.servers| == |s.servers|
    ensures HeldRight(s') && AllMatch(s')
  {
    KnownIsFine(s, l);
    forall g, h | g in s'.held && h in s'.held ensures Matching(g.log, h.log) {
      if g == Held(i, l) && h == Held(i, l) {
        assert Matching(l, l);
      }
    }
  }

  /** Deliveries, in whatever order, keep Log Matching with no assumption about leaders. */
  lemma DeliverKeepsMatching(s: State, env: Envelope)
    requires ServersRight(s) && HeldRight(s) && AllMatch(s) && AppendsRight(s) && Enabled(s, Deliver(env))
    ensures var s' := Do(s, Deliver(env));
            ServersRight(s') && HeldRight(s') && AllMatch(s') && AppendsRight(s')
  {
    var s' := Do(s, Deliver(env));
    DeliveredLog(s, env);
    assert s.servers[env.to].me == env.to;
    HoldKnown(s, s', env.to, s'.servers[env.to].log);
    KnownGrows(s, s');
  }

  lemma KnownGrows(s: State, s': State)
    requires s.held <= s'.held
    ensures forall l :: Known(s, l) ==> Known(s', l)
  {
    forall l | Known(s, l) ensures Known(s', l) {
      var h :| h in s.held && l <= h.log;
      assert h in s'.held;
    }
  }

  /** Logs of a leader that stays in its term do not shrink, terms do not decrease: origins stay. */
  ghost predicate Steady(s: State, s': State) {
    && |s'.servers| == |s.servers|
    && s.leaders <= s'.leaders
    && (forall d :: d in s'.leaders && d !in s.leaders ==> !TermLed(s, d.term))
    && (forall i :: 0 <= i < |s.servers| ==> s.servers[i].currentTerm <= s'.servers[i].currentTerm)
    && (forall d :: d in s.leaders && d.server < |s.servers| && s'.servers[d.server].currentTerm == d.term
                    && s.servers[d.server].currentTerm == d.term ==>
          s.servers[d.server].log <= s'.servers[d.server].log)
  }

  lemma OriginSteady(s: State, s': State, l: seq<Entry>)
    requires Steady(s, s') && Origin(s, l) && LeadersRight(s)
    ensures Origin(s', l)
  {
    forall k | 1 <= k < |l| ensures TermLed(s', l[k].term) && LeaderReaches(s', l[k].term, k) {
      assert TermLed(s, l[k].term) && LeaderReaches(s, l[k].term, k);
      var d0 :| d0 in s.leaders && d0.term == l[k].term;
      assert d0 in s'.leaders;
      forall d | d in s'.leaders && d.term == l[k].term && d.server < |s'.servers|
                 && s'.servers[d.server].currentTerm == l[k].term
        ensures k < |s'.servers[d.server].log| && s'.servers[d.server].log[k].term == l[k].term
      {
        assert d in s.leaders;
      }
    }
  }

  lemma OriginsSteady(s: State, s': State)
    requires Steady(s, s') && OriginsRight(s) && LeadersRight(s) && s'.held == s.held
    ensures OriginsRight(s')
  {
    forall h | h in s'.held ensures Origin(s', h.log) {
      OriginSteady(s, s', h.log);
    }
  }

  lemma GoalsSteady(s: State, s': State)
    requires Steady(s, s') && GoalsRight(s) && LeadersRight(s) && s'.goals == s.goals
    ensures GoalsRight(s')
  {
    forall g | g in s'.goals
      ensures Leadership(g.term, g.server) in s'.leaders
      ensures var srv := s'.servers[g.server];
              srv.currentTerm == g.term ==> 1 <= g.index < |srv.log| && srv.log[g.index].term == g.term
    {
      var d := Leadership(g.term, g.server);
      assert d in s.leaders && d.term <= s.servers[d.server].currentTerm;
    }
  }

  /** With one leader per term, a server that leads its current term gets no append of that term. */
  lemma DeliverSteady(s: State, env: Envelope)
    requires LogInv(s) && OneLeader(s) && Enabled(s, Deliver(env))
    ensures Steady(s, Do(s, Deliver(env)))
  {
    var f, f' := s.servers[env.to], AppendEntries(s.servers[env.to], env.args).s;
    if f'.currentTerm == f.currentTerm && Leadership(f.currentTerm, env.to) in s.leaders {
      LeaderUntouched(s, env);
    }
    assert Do(s, Deliver(env)).servers == s.servers[env.to := f'];
  }

  lemma LeaderUntouched(s: State, env: Envelope)
    requires AppendsRight(s) && OneLeader(s) && Enabled(s, Deliver(env))
    requires var f := s.servers[env.to];
             Leadership(f.currentTerm, env.to) in s.leaders && AppendEntries(f, env.args).s.currentTerm == f.currentTerm
    ensures AppendEntries(s.servers[env.to], env.args).s.log == s.servers[env.to].log
  {
    if env.task.Replicate? {
      assert Leadership(env.args.term, env.from) in s.leaders && env.from != env.to;
      assert env.args.term != s.servers[env.to].currentTerm;
    }
  }

  lemma DeliverKeeps(s: State, env: Envelope)
    requires LogInv(s) && OneLeader(s) && Enabled(s, Deliver(env))
    ensures LogInv(Do(s, Deliver(env)))
  {
    var s' := Do(s, Deliver(env));
    DeliverKeepsMatching(s, env);
    DeliverSteady(s, env);
    DeliveredLog(s, env);
    GoalsSteady(s, s');
    var l := s'.servers[env.to].log;
    KnownIsFine(s, l);
    OriginSteady(s, s', l);
    NewOrigin(s, s', Held(env.to, l));
  }

  /** The one step that needs the hypothesis: a new entry of a term has a position no entry of that
      term had before. */
  lemma StartMatches(s: State, i: nat, command: string, h: Held)
    requires LogInv(s) && Enabled(s, StartCommand(i, command)) && h in s.held
    ensures var l := Start(s.servers[i], command).log;
            Matching(l, h.log) && Matching(h.log, l)
  {
    var srv := s.servers[i];
    var l := Start(srv, command).log;
    assert Held(i, srv.log) in s.held;
    assert Matching(srv.log, h.log) && Matching(h.log, srv.log);
    assert Leadership(srv.currentTerm, i) in s.leaders;
    assert Origin(s, h.log);
    assert |srv.log| < |h.log| ==> LeaderReaches(s, h.log[|srv.log|].term, |srv.log|);
    forall k | 0 <= k < |l| && k < |h.log| && l[k].term == h.log[k].term ensures l[..k + 1] == h.log[..k + 1] {
      assert k < |srv.log|;
      assert l[..k + 1] == srv.log[..k + 1];
    }
  }

  lemma StartMatching(s: State, i: nat, command: string)
    requires LogInv(s) && Enabled(s, StartCommand(i, command))
    ensures var s' := Do(s, StartCommand(i, command));
            ServersRight(s') && HeldRight(s') && AllMatch(s')
  {
    var s' := Do(s, StartCommand(i, command));
    var srv, l := s.servers[i], s'.servers[i].log;
    assert WellIndexed(srv.log) && l == srv.log + [Entry(srv.currentTerm, |srv.log|, command)];
    forall g, h | g in s'.held && h in s'.held ensures Matching(g.log, h.log) {
      if g !in s.held && h !in s.held {
        assert Matching(l, l);
      } else if g !in s.held {
        StartMatches(s, i, command, h);
      } else if h !in s.held {
        StartMatches(s, i, command, g);
      }
    }
  }

  lemma StartSteady(s: State, i: nat, command: string)
    requires LogInv(s) && Enabled(s, StartCommand(i, command))
    ensures var s' := Do(s, StartCommand(i, command));
            Steady(s, s') && AppendsRight(s') && LeadersRight(s') && GoalsRight(s')
  {
    var s' := Do(s, StartCommand(i, command));
    KnownGrows(s, s');
    assert Steady(s, s');
    assert WellIndexed(s.servers[i].log);
    GoalsSteady(s, s'.(goals := s.goals));
  }

  lemma StartKeeps(s: State, i: nat, command: string)
    requires LogInv(s) && OneLeader(s) && Enabled(s, StartCommand(i, command))
    ensures LogInv(Do(s, StartCommand(i, command)))
  {
    var s' := Do(s, StartCommand(i, command));
    StartMatching(s, i, command);
    StartSteady(s, i, command);
    StartOrigin(s, s', i, command);
    NewOrigin(s, s', Held(i, s'.servers[i].log));
  }

  lemma NewOrigin(s: State, s': State, n: Held)
    requires LeadersRight(s) && OriginsRight(s) && Steady(s, s') && s'.held == s.held + {n} && Origin(s', n.log)
    ensures OriginsRight(s')
  {
    forall h | h in s'.held ensures Origin(s', h.log) {
      if h in s.held {
        OriginSteady(s, s', h.log);
      }
    }
  }

  lemma StartOrigin(s: State, s': State, i: nat, command: string)
    requires LogInv(s) && Enabled(s, StartCommand(i, command)) && s' == Do(s, StartCommand(i, command)) && Steady(s, s')
    requires OneLeader(s)
    ensures Origin(s', s'.servers[i].log)
  {
    var srv, l := s.servers[i], s'.servers[i].log;
    assert Held(i, srv.log) in s.held;
    OriginSteady(s, s', srv.log);
    var d := Leadership(srv.currentTerm, i);
    assert d in s'.leaders;
    forall k | 1 <= k < |l| ensures TermLed(s', l[k].term) && LeaderReaches(s', l[k].term, k) {
      if k < |srv.log| {
        assert l[k] == srv.log[k];
      }
    }
  }

  // --- The other steps ---

  /** A step that changes no log and no leadership; a server may leave its term. */
  ghost predicate Quiet(s: State, s': State) {
    && |s'.servers| == |s.servers|
    && s'.leaders == s.leaders && s'.held == s.held && s'.goals == s.goals
    && forall i :: 0 <= i < |s.servers| ==> QuietServer(s.servers[i], s'.servers[i])
  }

  ghost predicate QuietServer(a: Server, b: Server) {
    && b.me == a.me && b.log == a.log && a.currentTerm <= b.currentTerm
    && |b.nextIndex| == |a.nextIndex| && |b.matchIndex| == |a.matchIndex|
    && (b.role == Leader ==> a.role == Leader && b.currentTerm == a.currentTerm)
  }

  lemma QuietKeeps(s: State, s': State)
    requires LogInv(s) && Quiet(s, s') && (s'.appends == s.appends || AppendsRight(s'))
    ensures LogInv(s')
  {
    assert ServersRight(s') by {
      forall i | 0 <= i < |s'.servers|
        ensures s'.servers[i].me == i && WellIndexed(s'.servers[i].log) && Held(i, s'.servers[i].log) in s'.held
        ensures |s'.servers[i].nextIndex| == |s'.servers[i].matchIndex| == |s'.servers|
      {
        assert QuietServer(s.servers[i], s'.servers[i]);
      }
    }
    KnownGrows(s, s');
    assert LeadersRight(s') by {
      forall d | d in s'.leaders ensures d.server < |s'.servers| && d.term <= s'.servers[d.server].currentTerm {
        assert QuietServer(s.servers[d.server], s'.servers[d.server]);
      }
    }
    QuietSteady(s, s');
    OriginsSteady(s, s');
    GoalsSteady(s, s');
  }

  lemma QuietSteady(s: State, s': State)
    requires Quiet(s, s')
    ensures Steady(s, s')
  {
    assert forall i :: 0 <= i < |s.servers| ==> QuietServer(s.servers[i], s'.servers[i]);
  }

  lemma QuietActions(s: State, a: Action)
    requires ServersRight(s) && Enabled(s, a)
    requires !a.Lead? && !a.StartCommand? && !a.Send? && !a.Deliver?
    ensures Quiet(s, Do(s, a)) && Do(s, a).appends == s.appends
  {
  }

  lemma LeadSteady(s: State, i: nat, won: int)
    requires Enabled(s, Lead(i, won)) && OneLeader(Do(s, Lead(i, won))) && LeadersRight(s)
    ensures Steady(s, Do(s, Lead(i, won)))
  {
    var s' := Do(s, Lead(i, won));
    var d := Leadership(s.servers[i].currentTerm, i);
    if d !in s.leaders {
      forall e | e in s.leaders ensures e.term != d.term {
        assert e in s'.leaders && d in s'.leaders;
      }
    }
  }

  lemma LeadKeeps(s: State, i: nat, won: int)
    requires LogInv(s) && Enabled(s, Lead(i, won)) && OneLeader(Do(s, Lead(i, won)))
    ensures LogInv(Do(s, Lead(i, won)))
  {
    var s' := Do(s, Lead(i, won));
    KnownGrows(s, s');
    LeadSteady(s, i, won);
    OriginsSteady(s, s');
    GoalsSteady(s, s');
  }

  lemma PackageRight(s: State, i: nat, term: int, peer: nat, task: Task)
    requires LogInv(s) && Enabled(s, Send(i, term, peer, task))
    ensures var e := Package(i, s.servers[i], term, peer, task);
            && CutFrom(e.args, e.covered) && e.covered <= e.log && Known(s, e.log) && Known(s, e.covered)
            && (if task.Heartbeat? then e.args.entries == [] else Leadership(term, i) in s.leaders)
  {
    var srv := s.servers[i];
    PackageCut(i, srv, term, peer, task);
    assert Held(i, srv.log) in s.held;
  }

  lemma PackageCut(i: nat, srv: Server, term: int, peer: nat, task: Task)
    requires peer < |srv.nextIndex| && 1 <= srv.nextIndex[peer] <= |srv.log|
    ensures var e := Package(i, srv, term, peer, task);
            && CutFrom(e.args, e.covered) && e.covered <= srv.log && (task.Heartbeat? ==> e.args.entries == [])
            && (task.Replicate? ==> e.covered == srv.log) && e.args.prevLogIndex == srv.nextIndex[peer] - 1
            && e.args.term == term && e.args.leader == srv.me && e.args.leaderCommit == srv.commitIndex
            && e.from == i && e.to == peer
  {
    var e := Package(i, srv, term, peer, task);
    var k := srv.nextIndex[peer] - 1;
    assert k < |e.covered| <= |srv.log|;
    assert |e.args.entries| == |e.covered| - 1 - k;
    assert e.covered[k] == srv.log[k];
  }

  lemma SendKeeps(s: State, i: nat, term: int, peer: nat, task: Task)
    requires LogInv(s) && Enabled(s, Send(i, term, peer, task))
    ensures LogInv(Do(s, Send(i, term, peer, task)))
  {
    SendAppends(s, i, term, peer, task);
    SendQuiet(s, i, term, peer, task);
    QuietKeeps(s, Do(s, Send(i, term, peer, task)));
  }

  lemma SendAppends(s: State, i: nat, term: int, peer: nat, task: Task)
    requires LogInv(s) && Enabled(s, Send(i, term, peer, task))
    ensures AppendsRight(Do(s, Send(i, term, peer, task)))
  {
    PackageRight(s, i, term, peer, task);
    KnownGrows(s, Do(s, Send(i, term, peer, task)));
  }

  lemma SendQuiet(s: State, i: nat, term: int, peer: nat, task: Task)
    requires Enabled(s, Send(i, term, peer, task))
    ensures Quiet(s, Do(s, Send(i, term, peer, task)))
  {
  }

  lemma LogInvStep(s: State, a: Action)
    requires LogInv(s) && Enabled(s, a) && OneLeader(Do(s, a))
    ensures LogInv(Do(s, a)) && s.leaders <= Do(s, a).leaders
  {
    match a
    case Lead(i, won) => LeadKeeps(s, i, won);
    case StartCommand(i, command) => StartKeeps(s, i, command);
    case Send(i, term, peer, task) => SendKeeps(s, i, term, peer, task);
    case Deliver(env) => DeliverKeeps(s, env);
    case _ =>
      QuietActions(s, a);
      QuietKeeps(s, Do(s, a));
  }

  lemma {:induction false} LeadersAccumulate(run: seq<State>, i: nat, j: nat)
    requires IsRun(run) && i <= j < |run|
    ensures run[i].leaders <= run[j].leaders
    decreases j - i
  {
    if i < j {
      LeadersAccumulate(run, i, j - 1);
      assert Next(run[j - 1], run[j - 1 + 1]);
    }
  }

  lemma {:induction false} LogInvRun(run: seq<State>, i: nat)
    requires IsRun(run) && OneLeader(End(run)) && i < |run|
    ensures LogInv(run[i]) && OneLeader(run[i])
  {
    LeadersAccumulate(run, i, |run| - 1);
    if i > 0 {
      LogInvRun(run, i - 1);
      assert Next(run[i - 1], run[i - 1 + 1]);
      var a :| Enabled(run[i - 1], a) && run[i] == Do(run[i - 1], a);
      LogInvStep(run[i - 1], a);
    }
  }

  /** The log was held by a server at some time, or is covered by a message sent. */
  ghost predicate Seen(s: State, l: seq<Entry>) {
    (exists h :: h in s.held && l == h.log) || (exists e :: e in s.appends && l == e.covered)
  }

  /** Log Matching: in every run where no term has two leaders, any two logs, held by a server now
      or at any earlier time or covered by a message in flight, that have the same term at
      a position are identical up to it. */
  lemma LogMatching(run: seq<State>, a: seq<Entry>, b: seq<Entry>)
    requires IsRun(run) && OneLeader(End(run)) && Seen(End(run), a) && Seen(End(run), b)
    ensures WellIndexed(a) && WellIndexed(b) && Matching(a, b)
  {
    var s := End(run);
    LogInvRun(run, |run| - 1);
    assert Known(s, a) && Known(s, b) && a != [] && b != [];
    KnownIsFine(s, a);
    KnownIsFine(s, b);
    var h :| h in s.held && b <= h.log;
    MatchingPrefix(a, h.log, b);
  }
}
