/** One Raft server: its state, the request handlers as functions, and the object whose methods run
    them under its mutex. */
module RaftServer {

  datatype Entry = Entry(term: int, index: int, command: string)
  datatype Role = Follower | Candidate | Leader

  datatype Server = Server(me: int, currentTerm: int, voteFor: int, role: Role, log: seq<Entry>,
                           commitIndex: int, nextIndex: seq<int>, matchIndex: seq<int>)

  datatype VoteArgs = VoteArgs(term: int, candidate: int, lastLogIndex: int, lastLogTerm: int)
  datatype VoteReply = VoteReply(term: int, granted: bool)
  datatype AppendArgs = AppendArgs(term: int, leader: int, prevLogIndex: int, prevLogTerm: int,
                                   entries: seq<Entry>, leaderCommit: int)
  datatype AppendReply = AppendReply(term: int, success: bool)

  datatype Handled<R> = Handled(s: Server, reply: R)

  const SENTINEL := Entry(0, 0, "")

  function Max(a: int, b: int): int {
    if a < b then b else a
  }

  function Min(a: int, b: int): int {
    if a < b then a else b
  }

  function Last(log: seq<Entry>): Entry
    requires log != []
  {
    log[|log| - 1]
  }

  function StepDown(s: Server, term: int): Server {
    s.(currentTerm := term, voteFor := -1, role := Follower)
  }

  /** The candidate's log is at least as up to date as ours. */
  predicate UpToDate(log: seq<Entry>, a: VoteArgs)
    requires log != []
  {
    Last(log).term < a.lastLogTerm || (Last(log).term == a.lastLogTerm && Last(log).index <= a.lastLogIndex)
  }

  function RequestVote(s: Server, a: VoteArgs): Handled<VoteReply>
    requires s.log != []
  {
    if a.term < s.currentTerm then Handled(s, VoteReply(s.currentTerm, false))
    else
      var s1 := if a.term > s.currentTerm then StepDown(s, a.term) else s;
      if (s1.voteFor == -1 || s1.voteFor == a.candidate) && UpToDate(s1.log, a) then
        Handled(s1.(voteFor := a.candidate), VoteReply(s1.currentTerm, true))
      else
        Handled(s1, VoteReply(s1.currentTerm, false))
  }

  /** Scans the first n entries from the back for the given index and term, giving up at the first
      smaller index; -1 when not found. */
  function Scan(log: seq<Entry>, n: nat, index: int, term: int): int
    requires n <= |log|
  {
    if n == 0 then -1
    else if log[n - 1].index == index && log[n - 1].term == term then n - 1
    else if log[n - 1].index < index then -1
    else Scan(log, n - 1, index, term)
  }

  /** Lays the entries over the log from pos on: the first entry past the end or in conflict
      replaces everything from there. */
  function Merge(log: seq<Entry>, pos: nat, entries: seq<Entry>): seq<Entry>
    requires pos <= |log|
    decreases |entries|
  {
    if entries == [] then log
    else if pos >= |log| then log + entries
    else if log[pos].index != entries[0].index || log[pos].term != entries[0].term then log[..pos] + entries
    else Merge(log, pos + 1, entries[1..])
  }

  lemma {:induction false} ScanBounds(log: seq<Entry>, n: nat, index: int, term: int)
    requires n <= |log|
    ensures -1 <= Scan(log, n, index, term) < n
  {
    if n > 0 {
      ScanBounds(log, n - 1, index, term);
    }
  }

  lemma {:induction false} MergeNonEmpty(log: seq<Entry>, pos: nat, entries: seq<Entry>)
    requires pos <= |log| && log != []
    ensures Merge(log, pos, entries) != []
    decreases |entries|
  {
    if entries != [] && pos < |log| && log[pos].index == entries[0].index && log[pos].term == entries[0].term {
      MergeNonEmpty(log, pos + 1, entries[1..]);
    }
  }

  function CommitBound(commit: int, leaderCommit: int, log: seq<Entry>): int
    requires log != []
  {
    if commit < leaderCommit then Min(leaderCommit, Last(log).index) else commit
  }

  function AppendEntries(s: Server, a: AppendArgs): Handled<AppendReply>
    requires s.log != []
  {
    if a.term < s.currentTerm then Handled(s, AppendReply(s.currentTerm, false))
    else
      var s1 := StepDown(s, a.term);
      ScanBounds(s1.log, |s1.log|, a.prevLogIndex, a.prevLogTerm);
      var pos := Scan(s1.log, |s1.log|, a.prevLogIndex, a.prevLogTerm);
      if pos < 0 then Handled(s1, AppendReply(s1.currentTerm, false))
      else
        var log := Merge(s1.log, pos + 1, a.entries);
        MergeNonEmpty(s1.log, pos + 1, a.entries);
        Handled(s1.(log := log, commitIndex := CommitBound(s1.commitIndex, a.leaderCommit, log)),
                AppendReply(s1.currentTerm, true))
  }

  function BecomeCandidate(s: Server): Server {
    s.(role := Candidate, currentTerm := s.currentTerm + 1, voteFor := s.me)
  }

  function VoteRequest(s: Server): VoteArgs
    requires s.log != []
  {
    VoteArgs(s.currentTerm, s.me, Last(s.log).index, Last(s.log).term)
  }

  function BecomeLeader(s: Server): Server
    requires s.log != []
  {
    s.(role := Leader,
       nextIndex := seq(|s.nextIndex|, _ => Last(s.log).index + 1),
       matchIndex := seq(|s.matchIndex|, _ => 0))
  }

  function Start(s: Server, command: string): Server {
    if s.role != Leader then s else s.(log := s.log + [Entry(s.currentTerm, |s.log|, command)])
  }

  class Raft {
    const me: int
    var currentTerm: int
    var voteFor: int
    var role: Role
    var log: seq<Entry>
    var commitIndex: int
    var nextIndex: array<int>
    var matchIndex: array<int>

    ghost predicate Valid()
      reads this
    {
      log != [] && nextIndex != matchIndex && nextIndex.Length == matchIndex.Length
    }

    function Value(): Server
      reads this, nextIndex, matchIndex
    {
      Server(me, currentTerm, voteFor, role, log, commitIndex, nextIndex[..], matchIndex[..])
    }

    constructor (me: int, peers: nat)
      ensures Valid() && fresh(nextIndex) && fresh(matchIndex)
      ensures Value() == Server(me, 0, -1, Follower, [SENTINEL], 0, seq(peers, _ => 0), seq(peers, _ => 0))
    {
      this.me := me;
      currentTerm, voteFor, role, log, commitIndex := 0, -1, Follower, [SENTINEL], 0;
      nextIndex := new int[peers](_ => 0);
      matchIndex := new int[peers](_ => 0);
      new;
      assert nextIndex[..] == seq(peers, _ => 0) && matchIndex[..] == seq(peers, _ => 0);
    }

    method SetNewTerm(term: int)
      modifies this`currentTerm, this`voteFor, this`role
      ensures Value() == StepDown(old(Value()), term)
    {
      currentTerm, voteFor, role := term, -1, Follower;
    }

    method HandleRequestVote(a: VoteArgs) returns (reply: VoteReply)
      requires Valid()
      modifies this`currentTerm, this`voteFor, this`role
      ensures Valid() && Value() == RequestVote(old(Value()), a).s && reply == RequestVote(old(Value()), a).reply
    {
      if a.term < currentTerm {
        return VoteReply(currentTerm, false);
      }
      if a.term > currentTerm {
        SetNewTerm(a.term);
      }
      var last := log[|log| - 1];
      var qualified := last.term < a.lastLogTerm || (last.term == a.lastLogTerm && last.index <= a.lastLogIndex);
      if (voteFor == -1 || voteFor == a.candidate) && qualified {
        reply := VoteReply(currentTerm, true);
        voteFor := a.candidate;
      } else {
        reply := VoteReply(currentTerm, false);
      }
    }

    /** The consistency scan. */
    method FindPrev(index: int, term: int) returns (pos: int)
      ensures pos == Scan(log, |log|, index, term)
    {
      var i := |log| - 1;
      while i >= 0
        invariant -1 <= i < |log|
        invariant Scan(log, i + 1, index, term) == Scan(log, |log|, index, term)
      {
        if log[i].index == index && log[i].term == term {
          return i;
        }
        if log[i].index < index {
          return -1;
        }
        i := i - 1;
      }
      return -1;
    }

    /** The merge loop, starting behind the entry at prev. */
    method MergeEntries(prev: nat, entries: seq<Entry>)
      requires prev < |log|
      modifies this`log
      ensures log == Merge(old(log), prev + 1, entries)
    {
      var pos, i := prev + 1, 0;
      while i < |entries|
        invariant 0 <= i <= |entries| && 0 <= pos <= |log| && log == old(log)
        invariant Merge(log, pos, entries[i..]) == Merge(old(log), prev + 1, entries)
      {
        if pos >= |log| {
          log := log + entries[i..];
          return;
        }
        if log[pos].index != entries[i].index || log[pos].term != entries[i].term {
          log := log[..pos] + entries[i..];
          return;
        }
        assert entries[i..][1..] == entries[i + 1..];
        i, pos := i + 1, pos + 1;
      }
    }

    method HandleAppendEntries(a: AppendArgs) returns (reply: AppendReply)
      requires Valid()
      modifies this`currentTerm, this`voteFor, this`role, this`log, this`commitIndex
      ensures Valid() && Value() == AppendEntries(old(Value()), a).s && reply == AppendEntries(old(Value()), a).reply
    {
      if a.term < currentTerm {
        return AppendReply(currentTerm, false);
      }
      SetNewTerm(a.term);
      ScanBounds(log, |log|, a.prevLogIndex, a.prevLogTerm);
      var pos := FindPrev(a.prevLogIndex, a.prevLogTerm);
      if pos < 0 {
        return AppendReply(currentTerm, false);
      }
      MergeNonEmpty(log, pos + 1, a.entries);
      MergeEntries(pos, a.entries);
      if commitIndex < a.leaderCommit {
        commitIndex := Min(a.leaderCommit, log[|log| - 1].index);
      }
      return AppendReply(currentTerm, true);
    }

    method DoStart(command: string) returns (index: int, term: int, isLeader: bool)
      requires Valid()
      modifies this`log
      ensures Valid() && Value() == Start(old(Value()), command)
      ensures isLeader <==> role == Leader
      ensures log == if isLeader then old(log) + [Entry(currentTerm, |old(log)|, command)] else old(log)
      ensures isLeader ==> term == currentTerm && 0 <= index < |log| && log[index] == Entry(term, index, command)
      ensures !isLeader ==> index == -1 && term == -1
    {
      if role != Leader {
        return -1, -1, false;
      }
      index, term, isLeader := |log|, currentTerm, true;
      log := log + [Entry(term, index, command)];
    }

    method DoBecomeLeader()
      requires Valid()
      modifies this`role, nextIndex, matchIndex
      ensures Valid() && Value() == BecomeLeader(old(Value()))
      ensures role == Leader
      ensures forall p :: 0 <= p < nextIndex.Length ==> nextIndex[p] == Last(log).index + 1 && matchIndex[p] == 0
    {
      role := Leader;
      var init := log[|log| - 1].index + 1;
      for i := 0 to nextIndex.Length
        invariant role == Leader
        invariant forall j :: 0 <= j < i ==> nextIndex[j] == init && matchIndex[j] == 0
      {
        nextIndex[i] := init;
        matchIndex[i] := 0;
      }
      ghost var goal := BecomeLeader(old(Value()));
      assert nextIndex[..] == goal.nextIndex && matchIndex[..] == goal.matchIndex;
    }

    method DoBecomeCandidate() returns (a: VoteArgs)
      requires Valid()
      modifies this`role, this`currentTerm, this`voteFor
      ensures Valid() && Value() == BecomeCandidate(old(Value())) && a == VoteRequest(Value())
      ensures role == Candidate && currentTerm == old(currentTerm) + 1 && voteFor == me
      ensures a == VoteArgs(currentTerm, me, Last(log).index, Last(log).term)
    {
      role := Candidate;
      currentTerm := currentTerm + 1;
      voteFor := me;
      a := VoteArgs(currentTerm, me, log[|log| - 1].index, log[|log| - 1].term);
    }
  }

  // --- What the handlers answer and what they leave alone ---

  /** The last entry of the log is newer than the one the candidate names. */
  predicate Newer(log: seq<Entry>, a: VoteArgs)
    requires log != []
  {
    Last(log).term > a.lastLogTerm || (Last(log).term == a.lastLogTerm && Last(log).index > a.lastLogIndex)
  }

  /** A vote request: the server catches up with the term in any case, and says which term it is in; it grants exactly
      if the term is not behind, it has given this term's vote to nobody or to this candidate, and its own last entry is
      not newer. */
  lemma VoteLaw(s: Server, a: VoteArgs)
    requires s.log != []
    ensures var r := RequestVote(s, a);
            && r.s.currentTerm == Max(s.currentTerm, a.term) && r.reply.term == r.s.currentTerm
            && r.s.role == (if a.term > s.currentTerm then Follower else s.role)
            && (r.reply.granted <==>
                  && a.term >= s.currentTerm && !Newer(s.log, a)
                  && (a.term > s.currentTerm || s.voteFor == -1 || s.voteFor == a.candidate))
            && (r.reply.granted ==> r.s.voteFor == a.candidate)
            && (!r.reply.granted ==> r.s.voteFor == if a.term > s.currentTerm then -1 else s.voteFor)
            && r.s.me == s.me && r.s.log == s.log && r.s.commitIndex == s.commitIndex
            && r.s.nextIndex == s.nextIndex && r.s.matchIndex == s.matchIndex
  {
  }

  /** Asked again by the candidate it voted for, a server grants again and changes nothing. */
  lemma VoteRepeats(s: Server, a: VoteArgs)
    requires s.log != [] && RequestVote(s, a).reply.granted
    ensures RequestVote(RequestVote(s, a).s, a) == RequestVote(s, a)
  {
  }

  /** An append: the server catches up with the term and says which term it is in; a stale one changes nothing, any
      other makes it a follower without a vote; a refused one leaves log and commit index, an accepted one raises the
      commit index to the sender's as far as the log goes. */
  lemma AppendLaw(s: Server, a: AppendArgs)
    requires s.log != []
    ensures var r := AppendEntries(s, a);
            && r.s.currentTerm == Max(s.currentTerm, a.term) && r.reply.term == r.s.currentTerm
            && (a.term < s.currentTerm ==> r.s == s && !r.reply.success)
            && (a.term >= s.currentTerm ==> r.s.role == Follower && r.s.voteFor == -1)
            && (!r.reply.success ==> r.s.log == s.log && r.s.commitIndex == s.commitIndex)
            && (r.reply.success && a.leaderCommit <= s.commitIndex ==> r.s.commitIndex == s.commitIndex)
            && (r.reply.success && a.leaderCommit > s.commitIndex ==>
                  && r.s.log != [] && r.s.commitIndex <= a.leaderCommit && r.s.commitIndex <= Last(r.s.log).index
                  && (r.s.commitIndex == a.leaderCommit || r.s.commitIndex == Last(r.s.log).index))
            && r.s.me == s.me && r.s.nextIndex == s.nextIndex && r.s.matchIndex == s.matchIndex
  {
    ScanBounds(s.log, |s.log|, a.prevLogIndex, a.prevLogTerm);
    var pos := Scan(s.log, |s.log|, a.prevLogIndex, a.prevLogTerm);
    if pos >= 0 {
      MergeNonEmpty(s.log, pos + 1, a.entries);
    }
  }

  // --- What the append handler does to the log ---

  /** A log as every server keeps it: the sentinel first, and positions as indices. */
  ghost predicate WellIndexed(log: seq<Entry>) {
    && log != [] && log[0] == SENTINEL
    && forall i :: 0 <= i < |log| ==> log[i].index == i
  }

  /** Log Matching for two logs: equal index and term at a position means equal up to it. */
  ghost predicate Matching(a: seq<Entry>, b: seq<Entry>) {
    forall i :: 0 <= i < |a| && i < |b| && a[i].term == b[i].term ==> a[..i + 1] == b[..i + 1]
  }

  /** The message carries the last entries of the log l, cut behind some position of it. */
  ghost predicate CutFrom(a: AppendArgs, l: seq<Entry>) {
    && |a.entries| < |l|
    && var k := |l| - 1 - |a.entries|;
       a.prevLogIndex == k && a.prevLogTerm == l[k].term && a.entries == l[k + 1..]
  }

  /** The scan finds exactly the position the index names, if the term there agrees. */
  lemma {:induction false} ScanFinds(log: seq<Entry>, n: nat, index: int, term: int)
    requires WellIndexed(log) && n <= |log|
    ensures Scan(log, n, index, term) == if 0 <= index < n && log[index].term == term then index else -1
  {
    if n > 0 && !(log[n - 1].index == index && log[n - 1].term == term) && log[n - 1].index >= index {
      ScanFinds(log, n - 1, index, term);
    }
  }

  /** Merging l over a log that agrees with it before pos: l wins unless it is already there. */
  lemma {:induction false} MergeWins(f: seq<Entry>, l: seq<Entry>, pos: nat)
    requires WellIndexed(f) && WellIndexed(l) && Matching(f, l)
    requires pos <= |f| && pos <= |l| && f[..pos] == l[..pos]
    ensures Merge(f, pos, l[pos..]) == if l <= f then f else l
    decreases |l| - pos
  {
    if pos < |l| {
      if pos >= |f| {
        assert f + l[pos..] == l;
      } else if f[pos].term != l[pos].term {
        assert f[..pos] + l[pos..] == l;
        assert !(l <= f);
      } else {
        assert f[..pos + 1] == l[..pos + 1];
        assert l[pos..][1..] == l[pos + 1..];
        MergeWins(f, l, pos + 1);
      }
    } else {
      assert l[pos..] == [] && l[..pos] == l;
    }
  }

  /** The whole handler on a message cut from l: it is accepted exactly when its term is not old and
      the log has l's entry at the cut; then the log becomes l, or stays if it extends l. */
  lemma AppendOutcome(s: Server, a: AppendArgs, l: seq<Entry>)
    requires WellIndexed(s.log) && WellIndexed(l) && Matching(s.log, l) && CutFrom(a, l)
    ensures var r := AppendEntries(s, a);
            && (r.reply.success <==>
                  a.term >= s.currentTerm && a.prevLogIndex < |s.log| && s.log[a.prevLogIndex].term == a.prevLogTerm)
            && r.s.log == (if !r.reply.success || l <= s.log then s.log else l)
            && (r.reply.success ==> l <= r.s.log)
  {
    ScanFinds(s.log, |s.log|, a.prevLogIndex, a.prevLogTerm);
    if a.prevLogIndex < |s.log| && s.log[a.prevLogIndex].term == a.prevLogTerm {
      CutMerges(s.log, a, l);
    }
  }

  /** Where the cut agrees, merging yields l, or keeps a log that extends it. */
  lemma CutMerges(f: seq<Entry>, a: AppendArgs, l: seq<Entry>)
    requires WellIndexed(f) && WellIndexed(l) && Matching(f, l) && CutFrom(a, l)
    requires a.prevLogIndex < |f| && f[a.prevLogIndex].term == a.prevLogTerm
    ensures Merge(f, a.prevLogIndex + 1, a.entries) == if l <= f then f else l
  {
    var k := a.prevLogIndex;
    assert f[..k + 1] == l[..k + 1];
    MergeWins(f, l, k + 1);
  }
}
