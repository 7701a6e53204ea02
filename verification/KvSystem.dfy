/** Any number of clerks calling one server over a lossy network, as a transition system
    over RPC attempts: at-most-once Puts, conservation of versions, linearizability. */
module KvSystem {
  import opened KvServer
  import opened KvClerk
  import opened Network
  import opened KvModel
  import opened Tallies

  datatype Phase =
    | Sending                            // attempts go out until one is answered
    | Replied(reply: KvOutput)           // answered, not yet returned to the caller
    | Returned(out: KvOutput, ret: int)

  /** One Clerk.Get or Clerk.Put call; applied counts the times it changed the store. */
  datatype Call = Call(input: KvInput, at: int, resend: bool, applied: nat, phase: Phase)

  /** Besides the server's store: all calls made so far, the clock, whether any message was
      lost, and the calls that have taken effect, in the order in which they did. */
  datatype State = State(kv: Store<string>, calls: seq<Call>, now: int, lossy: bool, effects: seq<nat>)

  datatype Action =
    | Advance(to: int)
    | Invoke(input: KvInput)
    | Try(id: nat, fate: Fate)
    | Return(id: nat)

  ghost predicate Init(s: State) {
    s.kv == map[] && s.calls == [] && s.effects == [] && !s.lossy
  }

  ghost predicate Enabled(s: State, a: Action) {
    match a
    case Advance(to) => s.now <= to
    case Invoke(input) => input.op == 0 || input.op == 1
    case Try(id, _) => id < |s.calls| && s.calls[id].phase.Sending?
    case Return(id) => id < |s.calls| && s.calls[id].phase.Replied?
  }

  function Args(inp: KvInput): PutArgs<string> {
    PutArgs(inp.key, inp.value, inp.version)
  }

  function GetReply(kv: Store<string>, key: string): KvOutput {
    if key in kv then KvOutput(kv[key].value, kv[key].version, OK) else KvOutput("", 0, ErrNoKey)
  }

  function PutReply(e: Err): KvOutput {
    KvOutput("", 0, e)
  }

  /** A call has taken effect once it changed the store or was answered. */
  predicate Effective(c: Call) {
    c.applied > 0 || !c.phase.Sending?
  }

  function TryGet(c: Call, kv: Store<string>, fate: Fate): Call {
    if fate == Answered then c.(phase := Replied(GetReply(kv, c.input.key))) else c.(resend := true)
  }

  function TryPut(c: Call, kv: Store<string>, fate: Fate): Call {
    var e := PutErr(kv, Args(c.input));
    var hit := if fate != Dropped && e == OK then 1 else 0;
    var c' := c.(applied := c.applied + hit);
    if fate == Answered then c'.(phase := Replied(PutReply(Conclude(c.resend, e)))) else c'.(resend := true)
  }

  function TryCall(c: Call, kv: Store<string>, fate: Fate): Call {
    if c.input.op == 0 then TryGet(c, kv, fate) else TryPut(c, kv, fate)
  }

  function TryStore(c: Call, kv: Store<string>, fate: Fate): Store<string> {
    if c.input.op == 0 || fate == Dropped then kv else PutStore(kv, Args(c.input))
  }

  ghost function Do(s: State, a: Action): State
    requires Enabled(s, a)
  {
    match a
    case Advance(to) => s.(now := to)
    case Invoke(input) => s.(calls := s.calls + [Call(input, s.now, false, 0, Sending)])
    case Try(id, fate) =>
      var c := TryCall(s.calls[id], s.kv, fate);
      State(TryStore(s.calls[id], s.kv, fate), s.calls[id := c], s.now, s.lossy || fate != Answered,
            if Effective(c) && !Effective(s.calls[id]) then s.effects + [id] else s.effects)
    case Return(id) =>
      s.(calls := s.calls[id := s.calls[id].(phase := Returned(s.calls[id].phase.reply, s.now))])
  }

  ghost predicate Next(s: State, s': State) {
    exists a :: Enabled(s, a) && s' == Do(s, a)
  }

  ghost predicate IsRun(run: seq<State>) {
    && run != [] && Init(run[0])
    && forall i :: 0 <= i < |run| - 1 ==> Next(run[i], run[i + 1])
  }

  ghost function Last(run: seq<State>): State
    requires run != []
  {
    run[|run| - 1]
  }

  // --- The steps of one call are the clerk's loop ---

  datatype Tried = Tried(call: Call, kv: Store<string>)

  /** The attempts of one call in turn, each after the requests other clerks got in before it. */
  ghost function TryAll(c: Call, kv: Store<string>, net: seq<Attempt<string>>): Tried
    decreases |net|
  {
    if net == [] then Tried(c, kv)
    else
      var m := PutAll(kv, net[0].others);
      TryAll(TryCall(c, m, net[0].fate), TryStore(c, m, net[0].fate), net[1..])
  }

  /** Taken step by step, a Put call ends with the store, the error and the number of effects of the
      clerk's Put loop. */
  lemma {:induction false} StepsOfPut(c: Call, kv: Store<string>, net: seq<Attempt<string>>)
    requires IsCall(net) && c.phase.Sending? && c.input.op == 1
    ensures var r := PutRun(kv, Args(c.input), net, c.resend); var t := TryAll(c, kv, net);
            && t.kv == r.store && t.call.phase == Replied(PutReply(r.err)) && t.call.applied == c.applied + r.applied
    decreases |net|
  {
    if net[0].fate == Answered {
      assert net[1..] == [];
    } else {
      var m := PutAll(kv, net[0].others);
      StepsOfPut(TryCall(c, m, net[0].fate), TryStore(c, m, net[0].fate), net[1..]);
    }
  }

  /** Taken step by step, a Get call is answered from the store the clerk's Get loop reads. */
  lemma {:induction false} StepsOfGet(c: Call, kv: Store<string>, net: seq<Attempt<string>>)
    requires IsCall(net) && c.phase.Sending? && c.input.op == 0
    ensures var m := StoreAtAnswer(kv, net); var t := TryAll(c, kv, net);
            t.kv == m && t.call.phase == Replied(GetReply(m, c.input.key))
    decreases |net|
  {
    if net[0].fate == Answered {
      assert net[1..] == [];
    } else {
      var m := PutAll(kv, net[0].others);
      StepsOfGet(TryCall(c, m, net[0].fate), m, net[1..]);
    }
  }

  // --- At most once, and what replies mean ---

  function Answer(c: Call): KvOutput
    requires !c.phase.Sending?
  {
    if c.phase.Replied? then c.phase.reply else c.phase.out
  }

  /** What is known about one call while the store is kv. */
  ghost predicate CallInv(c: Call, kv: Store<string>, lossy: bool) {
    && (c.input.op == 0 || c.input.op == 1)
    && c.applied <= 1
    && (c.applied == 1 ==> c.input.op == 1 && c.input.version < VersionOf(kv, c.input.key))
    && (c.resend ==> lossy)
    && (c.phase.Sending? && !c.resend ==> c.applied == 0)
    && (!c.phase.Sending? && c.input.op == 1 ==>
          var e := Answer(c).err;
          && (e == OK ==> c.applied == 1)
          && (e == ErrVersion || e == ErrNoKey ==> c.applied == 0)
          && (e == ErrMaybe ==> c.resend))
  }

  ghost predicate CallsInv(s: State) {
    && Positive(s.kv)
    && forall i :: 0 <= i < |s.calls| ==> CallInv(s.calls[i], s.kv, s.lossy)
  }

  lemma TryKeepsCallInv(c: Call, kv: Store<string>, lossy: bool, fate: Fate)
    requires Positive(kv) && CallInv(c, kv, lossy) && c.phase.Sending?
    ensures var kv' := TryStore(c, kv, fate);
            && Positive(kv') && Evolves(kv, kv')
            && CallInv(TryCall(c, kv, fate), kv', lossy || fate != Answered)
  {
    PutMovesOneVersion(kv, Args(c.input), c.input.key);
  }

  lemma CallInvEvolves(c: Call, kv: Store<string>, kv': Store<string>, lossy: bool, lossy': bool)
    requires CallInv(c, kv, lossy) && Evolves(kv, kv') && (lossy ==> lossy')
    ensures CallInv(c, kv', lossy')
  {
  }

  lemma CallsInvStep(s: State, a: Action)
    requires CallsInv(s) && Enabled(s, a)
    ensures CallsInv(Do(s, a)) && Evolves(s.kv, Do(s, a).kv)
  {
    var s' := Do(s, a);
    if a.Try? {
      TryKeepsCallInv(s.calls[a.id], s.kv, s.lossy, a.fate);
      forall i | 0 <= i < |s'.calls| ensures CallInv(s'.calls[i], s'.kv, s'.lossy) {
        if i != a.id {
          CallInvEvolves(s.calls[i], s.kv, s'.kv, s.lossy, s'.lossy);
        }
      }
    }
  }

  lemma {:induction false} CallsInvRun(run: seq<State>, i: nat)
    requires IsRun(run) && i < |run|
    ensures CallsInv(run[i])
  {
    if i > 0 {
      CallsInvRun(run, i - 1);
      assert Next(run[i - 1], run[i - 1 + 1]);
      var a :| Enabled(run[i - 1], a) && run[i] == Do(run[i - 1], a);
      CallsInvStep(run[i - 1], a);
    }
  }

  /** Over every interleaving a Put call changes the store at most once; OK means exactly once,
      ErrVersion and ErrNoKey mean never, ErrMaybe is answered only after a loss. */
  lemma AtMostOnce(run: seq<State>, id: nat)
    requires IsRun(run) && id < |Last(run).calls|
    ensures var s := Last(run); var c := s.calls[id];
            && c.applied <= 1
            && (c.input.op == 0 ==> c.applied == 0)
            && (c.phase.Returned? && c.input.op == 1 ==>
                  && (c.phase.out.err == OK ==> c.applied == 1)
                  && (c.phase.out.err == ErrVersion || c.phase.out.err == ErrNoKey ==> c.applied == 0)
                  && (c.phase.out.err == ErrMaybe ==> s.lossy))
  {
    CallsInvRun(run, |run| - 1);
  }

  lemma StoreEvolves(run: seq<State>, i: nat)
    requires IsRun(run) && i + 1 < |run|
    ensures Evolves(run[i].kv, run[i + 1].kv)
  {
    CallsInvRun(run, i);
    assert Next(run[i], run[i + 1]);
    var a :| Enabled(run[i], a) && run[i + 1] == Do(run[i], a);
    CallsInvStep(run[i], a);
  }

  lemma {:induction false} ChainEvolves(kvs: seq<Store<string>>, i: nat, j: nat)
    requires i <= j < |kvs| && forall k :: 0 <= k < |kvs| - 1 ==> Evolves(kvs[k], kvs[k + 1])
    ensures Evolves(kvs[i], kvs[j])
    decreases j - i
  {
    if i < j {
      ChainEvolves(kvs, i, j - 1);
      assert Evolves(kvs[j - 1], kvs[j - 1 + 1]);
      EvolvesTransitive(kvs[i], kvs[j - 1], kvs[j]);
    }
  }

  /** Keys are never lost and their versions never decrease, from any state to any later one. */
  lemma VersionsNeverDecrease(run: seq<State>, i: nat, j: nat)
    requires IsRun(run) && i <= j < |run|
    ensures Evolves(run[i].kv, run[j].kv)
  {
    var kvs := seq(|run|, k requires 0 <= k < |run| => run[k].kv);
    forall k | 0 <= k < |kvs| - 1 ensures Evolves(kvs[k], kvs[k + 1]) {
      StoreEvolves(run, k);
    }
    ChainEvolves(kvs, i, j);
  }

  /** When a Put call is given which answer, in every run: OK if and only if the answered attempt itself moved the
      version, ErrNoKey if and only if it met no key and one was expected, and on another version ErrMaybe
      if and only if the call had resent, ErrVersion if and only if it had not. */
  lemma AnswersExactly(run: seq<State>, id: nat)
    requires IsRun(run) && Enabled(Last(run), Try(id, Answered)) && Last(run).calls[id].input.op == 1
    ensures var s, s' := Last(run), Do(Last(run), Try(id, Answered));
            var inp, resend := s.calls[id].input, s.calls[id].resend;
            && id < |s'.calls| && s'.calls[id].phase.Replied?
            && var e := s'.calls[id].phase.reply.err;
               && (e == OK <==> VersionOf(s'.kv, inp.key) == VersionOf(s.kv, inp.key) + 1)
               && (e != OK <==> s'.kv == s.kv)
               && (e == ErrNoKey <==> inp.key !in s.kv && inp.version != 0)
               && (e == ErrMaybe <==> inp.key in s.kv && s.kv[inp.key].version != inp.version && resend)
               && (e == ErrVersion <==> inp.key in s.kv && s.kv[inp.key].version != inp.version && !resend)
  {
    CallsInvRun(run, |run| - 1);
    PutMovesOneVersion(Last(run).kv, Args(Last(run).calls[id].input), Last(run).calls[id].input.key);
  }

  /** A call has resent if and only if one of its attempts went unanswered. */
  lemma ResendsExactly(s: State, a: Action, id: nat)
    requires Enabled(s, a) && id < |s.calls|
    ensures id < |Do(s, a).calls| && Do(s, a).calls[id].input == s.calls[id].input
    ensures Do(s, a).calls[id].resend <==> s.calls[id].resend || (a.Try? && a.id == id && a.fate != Answered)
    ensures s.lossy || (a.Try? && a.fate != Answered) <==> Do(s, a).lossy
  {
  }

  /** An operation is recorded with the times of its call and its return, and no later step changes them. */
  lemma TimesAreReal(s: State, a: Action, id: nat)
    requires Enabled(s, a)
    ensures a.Invoke? ==> |Do(s, a).calls| == |s.calls| + 1 && Do(s, a).calls[|s.calls|].at == s.now
    ensures a.Return? ==> Do(s, a).calls[a.id].phase == Returned(s.calls[a.id].phase.reply, s.now)
    ensures id < |s.calls| ==> id < |Do(s, a).calls| && Do(s, a).calls[id].at == s.calls[id].at
    ensures id < |s.calls| && s.calls[id].phase.Returned? ==> Do(s, a).calls[id].phase == s.calls[id].phase
    ensures a.Advance? ==> Do(s, a).now == a.to
    ensures !a.Advance? ==> Do(s, a).now == s.now
  {
  }

  // --- Conservation: a version counts the applied Puts ---

  ghost function AppliedTo(key: string): Call -> nat {
    (c: Call) => if c.input.op == 1 && c.input.key == key then c.applied else 0
  }

  /** Counts completed Puts on a key with a given answer. */
  ghost function AnsweredWith(key: string, e: Err): Call -> nat {
    (c: Call) => if c.input.op == 1 && c.input.key == key && c.phase.Returned? && c.phase.out.err == e then 1 else 0
  }

  /** One attempt moves the version by as much as it moves the call's count. */
  lemma TryConserves(c: Call, kv: Store<string>, fate: Fate, key: string)
    requires Positive(kv) && (c.input.op == 0 || c.input.op == 1)
    ensures VersionOf(TryStore(c, kv, fate), key) + AppliedTo(key)(c) ==
            VersionOf(kv, key) + AppliedTo(key)(TryCall(c, kv, fate))
  {
    PutMovesOneVersion(kv, Args(c.input), key);
  }

  lemma ConservationStep(s: State, a: Action, key: string)
    requires CallsInv(s) && Enabled(s, a)
    requires VersionOf(s.kv, key) == Tally(s.calls, AppliedTo(key))
    ensures VersionOf(Do(s, a).kv, key) == Tally(Do(s, a).calls, AppliedTo(key))
  {
    match a
    case Advance(_) =>
    case Invoke(input) =>
      TallyAppend(s.calls, Call(input, s.now, false, 0, Sending), AppliedTo(key));
    case Try(id, fate) =>
      TallyUpdate(s.calls, id, TryCall(s.calls[id], s.kv, fate), AppliedTo(key));
      assert CallInv(s.calls[id], s.kv, s.lossy);
      TryConserves(s.calls[id], s.kv, fate, key);
    case Return(id) =>
      TallyUpdate(s.calls, id, Do(s, a).calls[id], AppliedTo(key));
  }

  /** In every reachable state a key's version is the number of Puts applied to it. */
  lemma {:induction false} VersionCountsPuts(run: seq<State>, i: nat, key: string)
    requires IsRun(run) && i < |run|
    ensures VersionOf(run[i].kv, key) == Tally(run[i].calls, AppliedTo(key))
  {
    if i > 0 {
      VersionCountsPuts(run, i - 1, key);
      CallsInvRun(run, i - 1);
      assert Next(run[i - 1], run[i - 1 + 1]);
      var a :| Enabled(run[i - 1], a) && run[i] == Do(run[i - 1], a);
      ConservationStep(run[i - 1], a, key);
    }
  }

  ghost predicate Complete(s: State) {
    forall i :: 0 <= i < |s.calls| ==> s.calls[i].phase.Returned?
  }

  /** The concurrent-put check: with all calls returned, the version lies between the number of
      OK answers and the number of OK or ErrMaybe answers, and equals the former
      when no message was lost. */
  lemma PutsAreConserved(run: seq<State>, key: string)
    requires IsRun(run) && Complete(Last(run))
    ensures var s := Last(run);
            var nok, nmaybe := Tally(s.calls, AnsweredWith(key, OK)), Tally(s.calls, AnsweredWith(key, ErrMaybe));
            && nok <= VersionOf(s.kv, key) <= nok + nmaybe
            && (!s.lossy ==> nmaybe == 0 && VersionOf(s.kv, key) == nok)
  {
    var s := Last(run);
    VersionCountsPuts(run, |run| - 1, key);
    CallsInvRun(run, |run| - 1);
    var lo, f, slack := AnsweredWith(key, OK), AppliedTo(key), AnsweredWith(key, ErrMaybe);
    forall i | 0 <= i < |s.calls|
      ensures lo(s.calls[i]) <= f(s.calls[i]) <= lo(s.calls[i]) + slack(s.calls[i])
      ensures !s.lossy ==> slack(s.calls[i]) == 0
    {
      assert CallInv(s.calls[i], s.kv, s.lossy) && s.calls[i].phase.Returned?;
    }
    TallyBetween(s.calls, lo, f, slack);
    if !s.lossy {
      TallyZero(s.calls, slack);
    }
  }

  // --- Linearizability ---

  /** What the specification is shown of a call; an applied Put still being resent counts as OK. */
  function OpOf(c: Call): Operation {
    Operation(c.input,
              if c.phase.Sending? then PutReply(OK) else Answer(c),
              c.at,
              if c.phase.Returned? then c.phase.ret else c.at)
  }

  ghost function OpAt(calls: seq<Call>): nat -> Operation {
    (i: nat) => if i < |calls| then OpOf(calls[i]) else Operation(KvInput(0, "", "", 0), PutReply(OK), 0, 0)
  }

  /** The calls that took effect, as operations, in the order of their effects. */
  ghost function EffectOps(s: State): seq<Operation> {
    Image(s.effects, OpAt(s.calls))
  }

  /** The history as the tester logs it. */
  ghost function History(s: State): seq<Operation> {
    seq(|s.calls|, i requires 0 <= i < |s.calls| => OpOf(s.calls[i]))
  }

  ghost function Final(ops: seq<Operation>, w: World): World
    decreases |ops|
  {
    if ops == [] then w else Final(ops[1..], AfterAll(w, ops[0].input))
  }

  lemma {:induction false} ReplayAppend(ops: seq<Operation>, x: Operation, w: World)
    ensures var st := At(Final(ops, w), x.input.key);
            && (AcceptsAll(EXACT, ops + [x], w) <==> AcceptsAll(EXACT, ops, w) && EXACT(st, x.input, x.output))
            && Final(ops + [x], w) == AfterAll(Final(ops, w), x.input)
    decreases |ops|
  {
    if ops == [] {
      assert ops + [x] == [x] && [x][1..] == [];
    } else {
      ReplayAppend(ops[1..], x, AfterAll(w, ops[0].input));
      assert (ops + [x])[1..] == ops[1..] + [x];
    }
  }

  /** Two orders that differ only in that some Puts answered OK in one are answered
      ErrMaybe in the other, and in return times. */
  ghost predicate Weakens(ops: seq<Operation>, ops': seq<Operation>) {
    && |ops| == |ops'|
    && forall i :: 0 <= i < |ops| ==> WeakensOne(ops[i], ops'[i])
  }

  ghost predicate WeakensOne(o: Operation, o': Operation) {
    && o'.input == o.input
    && (o'.output == o.output || (o.input.op == 1 && o.output.err == OK && o'.output.err == ErrMaybe))
  }

  lemma {:induction false} WeakensReplay(ops: seq<Operation>, ops': seq<Operation>, w: World)
    requires Weakens(ops, ops')
    ensures AcceptsAll(EXACT, ops, w) ==> AcceptsAll(EXACT, ops', w)
    ensures Final(ops, w) == Final(ops', w)
    decreases |ops|
  {
    if ops != [] {
      WeakensReplay(ops[1..], ops'[1..], AfterAll(w, ops[0].input));
    }
  }

  /** The server's store as the specification sees it. */
  ghost predicate Represents(w: World, kv: Store<string>) {
    forall k :: At(w, k) == if k in kv then KvState(kv[k].value, kv[k].version) else INIT
  }

  /** Each effective call occurs once in the order of effects, and no other index does. */
  ghost predicate EffectsExact(s: State) {
    forall i: nat :: multiset(s.effects)[i] == if i < |s.calls| && Effective(s.calls[i]) then 1 else 0
  }

  ghost predicate EffectsTimed(s: State) {
    && (forall i :: 0 <= i < |s.calls| ==> s.calls[i].at <= s.now)
    && (forall i :: 0 <= i < |s.calls| && s.calls[i].phase.Returned? ==> s.calls[i].at <= s.calls[i].phase.ret <= s.now)
    && (forall i :: 0 <= i < |s.effects| ==> s.effects[i] < |s.calls|)
    && (forall i, j :: 0 <= i < j < |s.effects| && s.calls[s.effects[j]].phase.Returned? ==>
          s.calls[s.effects[i]].at <= s.calls[s.effects[j]].phase.ret)
  }

  ghost predicate EffectsReplay(s: State) {
    Represents(Final(EffectOps(s), map[]), s.kv) && AcceptsAll(EXACT, EffectOps(s), map[])
  }

  ghost predicate LinInv(s: State) {
    CallsInv(s) && EffectsExact(s) && EffectsTimed(s) && EffectsReplay(s)
  }

  lemma EffectsExactStep(s: State, a: Action)
    requires EffectsExact(s) && Enabled(s, a)
    ensures EffectsExact(Do(s, a))
  {
    forall i: nat
      ensures multiset(Do(s, a).effects)[i] ==
              if i < |Do(s, a).calls| && Effective(Do(s, a).calls[i]) then 1 else 0
    {
      EffectCounted(s, a, i);
    }
  }

  lemma EffectCounted(s: State, a: Action, i: nat)
    requires EffectsExact(s) && Enabled(s, a)
    ensures multiset(Do(s, a).effects)[i] == if i < |Do(s, a).calls| && Effective(Do(s, a).calls[i]) then 1 else 0
  {
    var s' := Do(s, a);
    assert multiset(s.effects)[i] == if i < |s.calls| && Effective(s.calls[i]) then 1 else 0;
    if s'.effects != s.effects {
      assert multiset(s'.effects) == multiset(s.effects) + multiset{a.id};
    }
  }

  /** The k-th effect of a step's result was the k-th effect before, or is the new one. */
  lemma EffectsGrow(s: State, a: Action, k: nat)
    requires EffectsTimed(s) && Enabled(s, a) && k < |Do(s, a).effects|
    ensures var s' := Do(s, a); var id := s'.effects[k];
            && id < |s.calls| && s'.calls[id].at == s.calls[id].at
            && (if k < |s.effects| then s.effects[k] == id else a.Try? && a.id == id)
            && (s'.calls[id].phase.Returned? ==>
                  s'.calls[id].phase == s.calls[id].phase || s'.calls[id].phase.ret == s.now)
  {
  }

  lemma EffectsTimedStep(s: State, a: Action)
    requires EffectsTimed(s) && Enabled(s, a)
    ensures EffectsTimed(Do(s, a))
  {
    var s' := Do(s, a);
    forall i, j | 0 <= i < j < |s'.effects| && s'.calls[s'.effects[j]].phase.Returned?
      ensures s'.calls[s'.effects[i]].at <= s'.calls[s'.effects[j]].phase.ret
    {
      EffectsGrow(s, a, i);
      EffectsGrow(s, a, j);
    }
    forall i | 0 <= i < |s'.effects| ensures s'.effects[i] < |s'.calls| {
      EffectsGrow(s, a, i);
    }
  }

  lemma EffectsUnchanged(s: State, s': State)
    requires EffectsReplay(s) && EffectsTimed(s) && s'.kv == s.kv && s'.effects == s.effects && |s.calls| <= |s'.calls|
    requires Weakens(EffectOps(s), EffectOps(s'))
    ensures EffectsReplay(s')
  {
    WeakensReplay(EffectOps(s), EffectOps(s'), map[]);
  }

  /** A call takes effect: the specification takes the same step as the server. */
  lemma EffectMatches(c: Call, kv: Store<string>, lossy: bool, fate: Fate, w: World)
    requires Positive(kv) && CallInv(c, kv, lossy) && Represents(w, kv) && c.phase.Sending? && c.applied == 0
    requires Effective(TryCall(c, kv, fate))
    ensures var x := OpOf(TryCall(c, kv, fate));
            && x.input == c.input
            && Represents(AfterAll(w, c.input), TryStore(c, kv, fate))
            && EXACT(At(w, c.input.key), x.input, x.output)
  {
    var key := c.input.key;
    assert At(w, key) == if key in kv then KvState(kv[key].value, kv[key].version) else INIT;
    PutMovesOneVersion(kv, Args(c.input), key);
  }

  lemma NewEffect(s: State, id: nat, fate: Fate)
    requires LinInv(s) && Enabled(s, Try(id, fate))
    requires Effective(TryCall(s.calls[id], s.kv, fate)) && !Effective(s.calls[id])
    ensures EffectsReplay(Do(s, Try(id, fate)))
  {
    var s' := Do(s, Try(id, fate));
    var c, c' := s.calls[id], s'.calls[id];
    assert multiset(s.effects)[id] == 0;
    assert forall i :: 0 <= i < |s.effects| ==> s.effects[i] != id;
    var ops, x := EffectOps(s), OpOf(c');
    assert EffectOps(s') == ops + [x];
    ReplayAppend(ops, x, map[]);
    assert CallInv(c, s.kv, s.lossy);
    EffectMatches(c, s.kv, s.lossy, fate, Final(ops, map[]));
  }

  /** A later attempt of a call that already took effect changes nothing the specification sees
      but the answer: an applied Put shown as OK may now be known as ErrMaybe. */
  lemma OldEffect(c: Call, kv: Store<string>, lossy: bool, fate: Fate)
    requires Positive(kv) && CallInv(c, kv, lossy) && c.phase.Sending?
    requires Effective(c) || !Effective(TryCall(c, kv, fate))
    ensures TryStore(c, kv, fate) == kv
    ensures Effective(c) ==>
              var o, o' := OpOf(c), OpOf(TryCall(c, kv, fate));
              && o'.input == o.input && o.input.op == 1 && o.output.err == OK
              && (o'.output == o.output || o'.output.err == ErrMaybe)
  {
    PutMovesOneVersion(kv, Args(c.input), c.input.key);
  }

  lemma EffectsReplayStep(s: State, a: Action)
    requires LinInv(s) && Enabled(s, a)
    ensures EffectsReplay(Do(s, a))
  {
    var s' := Do(s, a);
    if a.Try? && Effective(s'.calls[a.id]) && !Effective(s.calls[a.id]) {
      NewEffect(s, a.id, a.fate);
    } else {
      if a.Try? {
        assert CallInv(s.calls[a.id], s.kv, s.lossy);
        OldEffect(s.calls[a.id], s.kv, s.lossy, a.fate);
      }
      forall i | 0 <= i < |s.effects| ensures WeakensOne(EffectOps(s)[i], EffectOps(s')[i]) {
        OldEffectWeakens(s, a, i);
      }
      EffectsUnchanged(s, s');
    }
  }

  lemma OldEffectWeakens(s: State, a: Action, i: nat)
    requires CallsInv(s) && EffectsExact(s) && EffectsTimed(s) && Enabled(s, a) && i < |s.effects|
    ensures var id := s.effects[i]; WeakensOne(OpAt(s.calls)(id), OpAt(Do(s, a).calls)(id))
  {
    var id := s.effects[i];
    assert multiset(s.effects)[id] > 0;
    assert Effective(s.calls[id]);
    if a.Try? && a.id == id {
      assert CallInv(s.calls[id], s.kv, s.lossy);
      OldEffect(s.calls[id], s.kv, s.lossy, a.fate);
    }
  }

  lemma {:induction false} LinInvRun(run: seq<State>, i: nat)
    requires IsRun(run) && i < |run|
    ensures LinInv(run[i])
  {
    if i > 0 {
      LinInvRun(run, i - 1);
      assert Next(run[i - 1], run[i - 1 + 1]);
      var a :| Enabled(run[i - 1], a) && run[i] == Do(run[i - 1], a);
      CallsInvStep(run[i - 1], a);
      EffectsExactStep(run[i - 1], a);
      EffectsTimedStep(run[i - 1], a);
      EffectsReplayStep(run[i - 1], a);
    } else {
      assert EffectOps(run[0]) == [];
    }
  }

  lemma {:induction false} TimedOrder(ops: seq<Operation>)
    requires forall i, j :: 0 <= i < j < |ops| ==> ops[i].call <= ops[j].ret
    ensures RespectsTime(ops)
    decreases |ops|
  {
    if ops != [] {
      TimedOrder(ops[1..]);
    }
  }

  lemma EffectsPermuteHistory(s: State)
    requires LinInv(s) && Complete(s)
    ensures multiset(EffectOps(s)) == multiset(History(s))
  {
    var ids: seq<nat> := seq(|s.calls|, i => i);
    forall i: nat ensures multiset(s.effects)[i] == multiset(ids)[i] {
      IdentityOnce(|s.calls|, i);
      if i < |s.calls| {
        assert s.calls[i].phase.Returned?;
      }
      assert multiset(s.effects)[i] == if i < |s.calls| && Effective(s.calls[i]) then 1 else 0;
    }
    ImageMultiset(s.effects, ids, OpAt(s.calls));
    assert Image(ids, OpAt(s.calls)) == History(s);
  }

  lemma {:induction false} IdentityOnce(n: nat, i: nat)
    ensures var ids: seq<nat> := seq(n, k => k); multiset(ids)[i] == if i < n then 1 else 0
  {
    var ids: seq<nat> := seq(n, k => k);
    if n > 0 {
      IdentityOnce(n - 1, i);
      var init: seq<nat> := seq(n - 1, k => k);
      assert ids == init + [n - 1];
    }
  }

  ghost predicate NoPutMissedKey(h: seq<Operation>) {
    forall x :: x in h && x.input.op == 1 ==> x.output.err != ErrNoKey
  }

  /** The checker's specification accepts a replay the documented behaviour accepts exactly
      when no Put in it is answered ErrNoKey. */
  lemma {:induction false} ExactAgainstModel(ops: seq<Operation>, w: World)
    requires AcceptsAll(EXACT, ops, w)
    ensures AcceptsAll(MODEL, ops, w) <==> NoPutMissedKey(ops)
    decreases |ops|
  {
    if ops != [] {
      ExactAgainstModel(ops[1..], AfterAll(w, ops[0].input));
      StepMovesAsAfter(At(w, ops[0].input.key), ops[0].input, ops[0].output);
      assert forall x :: x in ops <==> x == ops[0] || x in ops[1..];
    }
  }

  lemma {:induction false} ModelNeedsKeys(ops: seq<Operation>, w: World)
    requires AcceptsAll(MODEL, ops, w)
    ensures NoPutMissedKey(ops)
    decreases |ops|
  {
    if ops != [] {
      ModelNeedsKeys(ops[1..], AfterAll(w, ops[0].input));
      assert forall x :: x in ops <==> x == ops[0] || x in ops[1..];
    }
  }

  lemma SameElements(h: seq<Operation>, ops: seq<Operation>)
    requires multiset(ops) == multiset(h)
    ensures NoPutMissedKey(h) <==> NoPutMissedKey(ops)
  {
    forall x ensures x in h <==> x in ops {
      assert x in multiset(h) <==> x in multiset(ops);
    }
  }

  lemma ModelVerdict(h: seq<Operation>, ops: seq<Operation>)
    requires LinearizesAll(EXACT, h, ops)
    ensures LinearizableAll(MODEL, h) <==> NoPutMissedKey(h)
  {
    SameElements(h, ops);
    ExactAgainstModel(ops, map[]);
    if NoPutMissedKey(h) {
      assert LinearizesAll(MODEL, h, ops);
    }
    if LinearizableAll(MODEL, h) {
      var ops' :| LinearizesAll(MODEL, h, ops');
      ModelNeedsKeys(ops', map[]);
      SameElements(h, ops');
    }
  }

  /** The order of effects is a linearization. */
  lemma EffectsLinearize(s: State)
    requires LinInv(s) && Complete(s)
    ensures WellTimed(History(s)) && LinearizesAll(EXACT, History(s), EffectOps(s))
  {
    EffectsPermuteHistory(s);
    var ops := EffectOps(s);
    forall i, j | 0 <= i < j < |ops| ensures ops[i].call <= ops[j].ret {
      assert s.effects[j] < |s.calls| && s.calls[s.effects[j]].phase.Returned?;
    }
    TimedOrder(ops);
  }

  /** Every complete history of every run is linearizable against the documented behaviour, and
      against the checker's specification exactly when no Put in it was answered
      ErrNoKey, the one answer that specification has no case for. */
  lemma HistoriesLinearizable(run: seq<State>)
    requires IsRun(run) && Complete(Last(run))
    ensures WellTimed(History(Last(run)))
    ensures LinearizableAll(EXACT, History(Last(run)))
    ensures LinearizableAll(MODEL, History(Last(run))) <==> NoPutMissedKey(History(Last(run)))
  {
    LinInvRun(run, |run| - 1);
    EffectsLinearize(Last(run));
    ModelVerdict(History(Last(run)), EffectOps(Last(run)));
  }

  lemma {:induction false} CertainReplay(ops: seq<Operation>, w: World)
    requires AcceptsAll(EXACT, ops, w) && forall x :: x in ops && x.input.op == 1 ==> x.output.err != ErrMaybe
    ensures AcceptsAll(CERTAIN, ops, w)
    decreases |ops|
  {
    if ops != [] {
      assert ops[0] in ops;
      CertainReplay(ops[1..], AfterAll(w, ops[0].input));
    }
  }

  /** Without losses every complete history is linearizable with certain answers: no ErrMaybe anywhere. */
  lemma ReliableHistories(run: seq<State>)
    requires IsRun(run) && Complete(Last(run)) && !Last(run).lossy
    ensures LinearizableAll(CERTAIN, History(Last(run)))
  {
    var s := Last(run);
    LinInvRun(run, |run| - 1);
    EffectsLinearize(s);
    var ops := EffectOps(s);
    forall x | x in ops && x.input.op == 1 ensures x.output.err != ErrMaybe {
      var i :| 0 <= i < |ops| && ops[i] == x;
      assert CallInv(s.calls[s.effects[i]], s.kv, s.lossy);
    }
    CertainReplay(ops, map[]);
    assert LinearizesAll(CERTAIN, History(s), ops);
  }

  /** The checker, applied to the parts the history is partitioned into, passes on a complete run
      exactly when no Put was answered ErrNoKey. */
  lemma CheckerVerdict(run: seq<State>, keys: seq<string>, parts: seq<seq<Operation>>)
    requires IsRun(run) && Complete(Last(run))
    requires IsPartition(History(Last(run)), keys, parts)
    ensures (forall i :: 0 <= i < |parts| ==> Linearizable(MODEL, parts[i])) <==> NoPutMissedKey(History(Last(run)))
    ensures forall i :: 0 <= i < |parts| ==> Linearizable(EXACT, parts[i])
  {
    HistoriesLinearizable(run);
    PartsDecide(MODEL, History(Last(run)), keys, parts);
    PartsDecide(EXACT, History(Last(run)), keys, parts);
  }

  /** A failing input: one client's Put that names a version for a key that is not there is answered ErrNoKey as
      documented, and the checker rejects the history. */
  lemma MissedKeyRejected(key: string, value: string, version: nat) returns (run: seq<State>)
    requires version > 0
    ensures IsRun(run) && Complete(Last(run)) && |Last(run).calls| == 1
    ensures !LinearizableAll(MODEL, History(Last(run)))
  {
    var s0 := State(map[], [], 0, false, []);
    var input := KvInput(1, key, value, version);
    var s1 := Do(s0, Invoke(input));
    var s2 := Do(s1, Try(0, Answered));
    var s3 := Do(s2, Return(0));
    run := [s0, s1, s2, s3];
    assert Next(s0, s1) && Next(s1, s2) && Next(s2, s3);
    var x := History(s3)[0];
    assert x in History(s3) && x.input.op == 1 && x.output.err == ErrNoKey;
    HistoriesLinearizable(run);
  }
}
