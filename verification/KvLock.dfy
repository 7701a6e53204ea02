/** The distributed lock: clients that keep a lock state under one key of the key/value server,
    each RPC attempt a step, any attempt possibly lost on the way there or back. */
module KvLock {
  import opened KvServer
  import opened KvClerk
  import opened Network

  const UNLOCKED := "unlocked"

  /** Where a client is: the clerk call it is in, with the version a Put names and whether
      that Put is being resent. */
  datatype Pc =
    | Start
    | MakeGet | MakePut(resend: bool)                      // MakeLock
    | Idle
    | FirstGet | FirstPut(ver: nat, resend: bool)          // Acquire, first loop
    | AcquireGet | AcquirePut(ver: nat, resend: bool)      // Acquire, second loop
    | Held                                                 // Acquire has returned
    | ReleaseGet | ReleasePut(ver: nat, resend: bool)      // Release
    | Fatal                                                // log.Fatalf

  /** A client counts its returned Releases and how often its unlocking Puts took effect. */
  datatype Client = Client(id: string, pc: Pc, released: nat, unlocks: nat)

  datatype State = State(key: string, kv: Store<string>, clients: seq<Client>)

  datatype Action = Begin(c: nat) | Try(c: nat, fate: Fate)

  ghost predicate Init(s: State) {
    && s.kv == map[]
    && forall i :: 0 <= i < |s.clients| ==> s.clients[i] == Client(s.clients[i].id, Start, 0, 0)
  }

  predicate InGet(pc: Pc) {
    pc.MakeGet? || pc.FirstGet? || pc.AcquireGet? || pc.ReleaseGet?
  }

  predicate InPut(pc: Pc) {
    pc.MakePut? || pc.FirstPut? || pc.AcquirePut? || pc.ReleasePut?
  }

  ghost predicate Enabled(s: State, a: Action) {
    && a.c < |s.clients|
    && var pc := s.clients[a.c].pc;
       match a
       case Begin(_) => pc.Start? || pc.Idle? || pc.Held?
       case Try(_, _) => InGet(pc) || InPut(pc)
  }

  /** The next method call of the client's program: MakeLock, then Acquire and Release in turn. */
  function BeginPc(pc: Pc): Pc {
    if pc.Start? then MakeGet else if pc.Idle? then FirstGet else if pc.Held? then ReleaseGet else pc
  }

  predicate Permitted(value: string, id: string) {
    value == UNLOCKED || value == id
  }

  /** What a client does with the answer to a Get. */
  function AfterGet(c: Client, kv: Store<string>, key: string): Pc
    requires InGet(c.pc)
  {
    if key !in kv then
      if c.pc.MakeGet? then MakePut(false) else Fatal
    else
      var Versioned(value, ver) := kv[key];
      match c.pc
      case MakeGet => Idle
      case FirstGet => if Permitted(value, c.id) then FirstPut(ver, false) else FirstGet
      case AcquireGet => if Permitted(value, c.id) then AcquirePut(ver, false) else AcquireGet
      case ReleaseGet => if value == c.id then ReleasePut(ver, false) else Fatal
  }

  /** The Put a client has under way. */
  function Request(c: Client, key: string): PutArgs<string>
    requires InPut(c.pc)
  {
    match c.pc
    case MakePut(_) => PutArgs(key, UNLOCKED, 0)
    case FirstPut(ver, _) => PutArgs(key, c.id, ver)
    case AcquirePut(ver, _) => PutArgs(key, c.id, ver)
    case ReleasePut(ver, _) => PutArgs(key, UNLOCKED, ver)
  }

  function Resend(pc: Pc): Pc
    requires InPut(pc)
  {
    match pc
    case MakePut(_) => MakePut(true)
    case FirstPut(ver, _) => FirstPut(ver, true)
    case AcquirePut(ver, _) => AcquirePut(ver, true)
    case ReleasePut(ver, _) => ReleasePut(ver, true)
  }

  /** What a client does when its Put returns err; only the second loop of Acquire looks at it. */
  function AfterPut(pc: Pc, err: Err): Pc
    requires InPut(pc)
  {
    match pc
    case MakePut(_) => Idle
    case FirstPut(_, _) => AcquireGet
    case AcquirePut(_, _) => if err == OK then Held else AcquireGet
    case ReleasePut(_, _) => Idle
  }

  function TryGet(c: Client, kv: Store<string>, key: string, fate: Fate): Client
    requires InGet(c.pc)
  {
    if fate == Answered then c.(pc := AfterGet(c, kv, key)) else c
  }

  function TryPut(c: Client, kv: Store<string>, key: string, fate: Fate): Client
    requires InPut(c.pc)
  {
    var e := PutErr(kv, Request(c, key));
    var hit := if fate != Dropped && e == OK && c.pc.ReleasePut? then 1 else 0;
    if fate == Answered then
      Client(c.id, AfterPut(c.pc, Conclude(c.pc.resend, e)),
             c.released + (if c.pc.ReleasePut? then 1 else 0), c.unlocks + hit)
    else
      Client(c.id, Resend(c.pc), c.released, c.unlocks + hit)
  }

  datatype Tried = Tried(client: Client, kv: Store<string>)

  /** One RPC attempt of a client, at both ends. */
  function TryOnce(c: Client, kv: Store<string>, key: string, fate: Fate): Tried
    requires InGet(c.pc) || InPut(c.pc)
  {
    if InGet(c.pc) then Tried(TryGet(c, kv, key, fate), kv)
    else Tried(TryPut(c, kv, key, fate), if fate == Dropped then kv else PutStore(kv, Request(c, key)))
  }

  ghost function Do(s: State, a: Action): State
    requires Enabled(s, a)
  {
    var c := s.clients[a.c];
    match a
    case Begin(i) => s.(clients := s.clients[i := c.(pc := BeginPc(c.pc))])
    case Try(i, fate) =>
      var r := TryOnce(c, s.kv, s.key, fate);
      s.(kv := r.kv, clients := s.clients[i := r.client])
  }

  ghost predicate Next(s: State, s': State) {
    exists a :: Enabled(s, a) && s' == Do(s, a)
  }

  ghost predicate IsRun(run: seq<State>) {
    && run != [] && Init(run[0])
    && forall i :: 0 <= i < |run| - 1 ==> Next(run[i], run[i + 1])
  }

  ghost function Last(run: seq<State>): State
    requires run != []
  {
    run[|run| - 1]
  }

  /** Between Acquire returning and the Release Put taking effect. */
  predicate Holds(c: Client) {
    c.pc.Held? || c.pc.ReleaseGet? || (c.pc.ReleasePut? && c.unlocks == c.released)
  }

  ghost predicate Exclusive(s: State) {
    forall i, j :: 0 <= i < j < |s.clients| ==> !(Holds(s.clients[i]) && Holds(s.clients[j]))
  }

  ghost predicate GoodIds(s: State) {
    && (forall i, j :: 0 <= i < j < |s.clients| ==> s.clients[i].id != s.clients[j].id)
    && (forall i :: 0 <= i < |s.clients| ==> s.clients[i].id != UNLOCKED)
  }

  /** Before an Acquire writes, and from the moment a Release has taken effect. */
  predicate Absent(c: Client) {
    || c.pc.Start? || c.pc.MakeGet? || c.pc.MakePut? || c.pc.Idle? || c.pc.FirstGet?
    || (c.pc.ReleasePut? && c.unlocks > c.released)
  }

  /** What holds of one client while the store is kv. */
  ghost predicate ClientInv(c: Client, kv: Store<string>, key: string) {
    && !c.pc.Fatal?
    && (c.pc.Start? || c.pc.MakeGet? || c.pc.MakePut? || key in kv)
    && (c.pc.FirstPut? || c.pc.AcquirePut? ==>
          && 0 < c.pc.ver <= kv[key].version
          && (c.pc.ver == kv[key].version ==> Permitted(kv[key].value, c.id)))
    && (Holds(c) ==> kv[key].value == c.id)
    && (Absent(c) && key in kv ==> kv[key].value != c.id)
    && (c.pc.ReleasePut? ==>
          if c.unlocks == c.released then c.pc.ver == kv[key].version
          else c.unlocks == c.released + 1 && c.pc.resend && c.pc.ver < kv[key].version)
    && (!c.pc.ReleasePut? ==> c.unlocks == c.released)
  }

  ghost predicate Inv(s: State) {
    && GoodIds(s) && Positive(s.kv)
    && forall i :: 0 <= i < |s.clients| ==> ClientInv(s.clients[i], s.kv, s.key)
  }

  /** A client's own attempt keeps what is known about it. */
  lemma OwnTry(c: Client, kv: Store<string>, key: string, fate: Fate)
    requires Positive(kv) && ClientInv(c, kv, key) && c.id != UNLOCKED
    requires InPut(c.pc)
    ensures ClientInv(TryPut(c, kv, key, fate), if fate == Dropped then kv else PutStore(kv, Request(c, key)), key)
  {
    PutMovesOneVersion(kv, Request(c, key), key);
  }

  /** Another client's attempt keeps what is known about this one: its Put can only take effect
      when the lock is free or its own. */
  lemma OthersTry(c: Client, d: Client, kv: Store<string>, key: string)
    requires Positive(kv) && ClientInv(c, kv, key) && ClientInv(d, kv, key) && InPut(d.pc)
    requires c.id != d.id && c.id != UNLOCKED && d.id != UNLOCKED
    ensures ClientInv(c, PutStore(kv, Request(d, key)), key)
  {
    PutMovesOneVersion(kv, Request(d, key), key);
  }

  lemma InvStep(s: State, a: Action)
    requires Inv(s) && Enabled(s, a)
    ensures Inv(Do(s, a))
  {
    var s' := Do(s, a);
    var d := s.clients[a.c];
    assert ClientInv(d, s.kv, s.key);
    if InPut(d.pc) {
      PutMovesOneVersion(s.kv, Request(d, s.key), s.key);
    }
    forall i: nat | i < |s'.clients| ensures ClientInv(s'.clients[i], s'.kv, s.key) {
      ClientStep(s, a, i);
    }
  }

  lemma ClientStep(s: State, a: Action, i: nat)
    requires Inv(s) && Enabled(s, a) && i < |s.clients|
    ensures ClientInv(Do(s, a).clients[i], Do(s, a).kv, s.key)
  {
    var c, d := s.clients[i], s.clients[a.c];
    assert ClientInv(c, s.kv, s.key) && ClientInv(d, s.kv, s.key);
    if a.Try? && InPut(d.pc) {
      if i == a.c {
        OwnTry(d, s.kv, s.key, a.fate);
      } else {
        OthersTry(c, d, s.kv, s.key);
      }
    }
  }

  lemma {:induction false} InvRun(run: seq<State>, i: nat)
    requires IsRun(run) && GoodIds(run[0]) && i < |run|
    ensures Inv(run[i])
  {
    if i > 0 {
      InvRun(run, i - 1);
      assert Next(run[i - 1], run[i - 1 + 1]);
      var a :| Enabled(run[i - 1], a) && run[i] == Do(run[i - 1], a);
      InvStep(run[i - 1], a);
    }
  }

  /** With distinct client identifiers, none of them the unlocked mark, at most one client
      holds the lock in every state of every run, no fatal branch is ever taken, and outside a Release
      every Release so far has unlocked exactly once: the lock state names the holder, and a client that has released,
      or not yet asked, is not named there. */
  lemma LockIsSafe(run: seq<State>)
    requires IsRun(run) && GoodIds(run[0])
    ensures Exclusive(Last(run))
    ensures forall c :: c in Last(run).clients ==>
              !c.pc.Fatal? && (!c.pc.ReleasePut? ==> c.unlocks == c.released)
    ensures var s := Last(run);
            forall c :: c in s.clients ==>
              && (Holds(c) ==> s.key in s.kv && s.kv[s.key].value == c.id)
              && (Absent(c) && s.key in s.kv ==> s.kv[s.key].value != c.id)
  {
    InvRun(run, |run| - 1);
    var s := Last(run);
    forall i, j | 0 <= i < j < |s.clients| ensures !(Holds(s.clients[i]) && Holds(s.clients[j])) {
      assert ClientInv(s.clients[i], s.kv, s.key) && ClientInv(s.clients[j], s.kv, s.key);
    }
  }

  // --- Without good identifiers the lock fails ---

  lemma Extend(run: seq<State>, a: Action) returns (run': seq<State>)
    requires IsRun(run) && Enabled(Last(run), a)
    ensures IsRun(run') && run <= run' && run'[0] == run[0] && Last(run') == Do(Last(run), a)
  {
    run' := run + [Do(Last(run), a)];
    forall i | 0 <= i < |run'| - 1 ensures Next(run'[i], run'[i + 1]) {
      if i < |run| - 1 {
        assert Next(run[i], run[i + 1]);
      }
    }
  }

  ghost predicate OnlyMoved(s: State, s': State, c: nat, pc: Pc) {
    && c < |s.clients| && s'.key == s.key
    && s'.clients == s.clients[c := s.clients[c].(pc := pc)]
    && Positive(s'.kv)
  }

  /** A client alone gets through MakeLock. */
  lemma MakeAlone(run: seq<State>, c: nat) returns (run': seq<State>)
    requires IsRun(run) && c < |Last(run).clients| && Last(run).clients[c].pc.Start? && Positive(Last(run).kv)
    ensures IsRun(run') && run'[0] == run[0] && OnlyMoved(Last(run), Last(run'), c, Idle)
    ensures Last(run).key in Last(run').kv
    ensures Last(run).key in Last(run).kv ==> Last(run').kv == Last(run).kv
    ensures Last(run).key !in Last(run).kv ==> Last(run').kv[Last(run).key].value == UNLOCKED
  {
    var s := Last(run);
    run' := Extend(run, Begin(c));
    run' := Extend(run', Try(c, Answered));
    if s.key !in s.kv {
      assert Last(run').clients[c].pc == MakePut(false);
      run' := Extend(run', Try(c, Answered));
    }
  }

  /** A client alone acquires the lock whenever the lock state permits it. */
  lemma AcquireAlone(run: seq<State>, c: nat) returns (run': seq<State>)
    requires IsRun(run) && c < |Last(run).clients| && Last(run).clients[c].pc.Idle? && Positive(Last(run).kv)
    requires Last(run).key in Last(run).kv && Permitted(Last(run).kv[Last(run).key].value, Last(run).clients[c].id)
    ensures IsRun(run') && run'[0] == run[0] && OnlyMoved(Last(run), Last(run'), c, Held)
    ensures Last(run).key in Last(run').kv && Last(run').kv[Last(run).key].value == Last(run).clients[c].id
  {
    var s := Last(run);
    run' := Extend(run, Begin(c));
    run' := Extend(run', Try(c, Answered));
    assert Last(run').clients[c].pc == FirstPut(s.kv[s.key].version, false);
    run' := Extend(run', Try(c, Answered));
    assert Last(run').clients[c].pc == AcquireGet;
    var v := Last(run').kv[s.key].version;
    run' := Extend(run', Try(c, Answered));
    assert Last(run').clients[c].pc == AcquirePut(v, false);
    run' := Extend(run', Try(c, Answered));
  }

  /** What a Put that takes effect writes: the client's identifier while acquiring, the unlocked mark while making or
      releasing, one version up; and it writes nothing else. */
  lemma PutsWrite(s: State, c: nat, fate: Fate)
    requires Enabled(s, Try(c, fate)) && Positive(s.kv)
    requires VersionOf(Do(s, Try(c, fate)).kv, s.key) != VersionOf(s.kv, s.key)
    ensures var d := s.clients[c];
            && (d.pc.FirstPut? || d.pc.AcquirePut? || d.pc.MakePut? || d.pc.ReleasePut?)
            && Do(s, Try(c, fate)).kv ==
                 s.kv[s.key := Versioned(if d.pc.FirstPut? || d.pc.AcquirePut? then d.id else UNLOCKED,
                                         VersionOf(s.kv, s.key) + 1)]
  {
  }

  // --- The lock can be handed on ---

  /** Only this client moved. */
  ghost predicate OnlyClient(s: State, s': State, c: nat) {
    && s'.key == s.key && |s'.clients| == |s.clients| && c < |s.clients|
    && s'.clients[c].id == s.clients[c].id && s'.clients == s.clients[c := s'.clients[c]]
  }

  /** The holder alone gets through Release and leaves the lock unlocked. */
  lemma ReleaseAlone(run: seq<State>, c: nat) returns (run': seq<State>)
    requires IsRun(run) && c < |Last(run).clients| && Last(run).clients[c].pc.Held?
    requires Last(run).key in Last(run).kv && Last(run).kv[Last(run).key].value == Last(run).clients[c].id
    ensures IsRun(run') && run <= run' && OnlyClient(Last(run), Last(run'), c) && Last(run').clients[c].pc.Idle?
    ensures var key := Last(run).key;
            Last(run').kv == Last(run).kv[key := Versioned(UNLOCKED, Last(run).kv[key].version + 1)]
  {
    var s := Last(run);
    run' := Extend(run, Begin(c));
    run' := Extend(run', Try(c, Answered));
    assert Last(run').clients[c].pc == ReleasePut(s.kv[s.key].version, false);
    run' := Extend(run', Try(c, Answered));
  }

  ghost predicate Open(s: State, c: nat) {
    && c < |s.clients| && Positive(s.kv) && s.key in s.kv && Permitted(s.kv[s.key].value, s.clients[c].id)
  }

  /** A client in the second loop of Acquire, with the lock open to it, gets the lock. */
  lemma FinishAcquire(run: seq<State>, c: nat) returns (run': seq<State>)
    requires IsRun(run) && Open(Last(run), c) && Last(run).clients[c].pc.AcquireGet?
    ensures IsRun(run') && run <= run' && OnlyClient(Last(run), Last(run'), c) && Last(run').clients[c].pc.Held?
    ensures Last(run).key in Last(run').kv && Last(run').kv[Last(run).key].value == Last(run).clients[c].id
  {
    var s := Last(run);
    run' := Extend(run, Try(c, Answered));
    assert Last(run').clients[c].pc == AcquirePut(s.kv[s.key].version, false);
    run' := Extend(run', Try(c, Answered));
  }

  /** One answered attempt of a Put gets a client out of it, with the lock still open to it. */
  lemma LeavePut(run: seq<State>, c: nat) returns (run': seq<State>)
    requires IsRun(run) && Open(Last(run), c) && InPut(Last(run).clients[c].pc)
    ensures IsRun(run') && run <= run' && OnlyClient(Last(run), Last(run'), c) && Open(Last(run'), c)
    ensures var pc, pc' := Last(run).clients[c].pc, Last(run').clients[c].pc;
            && (pc.MakePut? || pc.ReleasePut? ==> pc'.Idle?) && (pc.FirstPut? ==> pc'.AcquireGet?)
            && (pc.AcquirePut? ==>
                  pc'.AcquireGet? || (pc'.Held? && Last(run').kv[Last(run).key].value == Last(run).clients[c].id))
  {
    run' := Extend(run, Try(c, Answered));
  }

  /** A client that is not in Acquire's second loop comes to it. */
  lemma EnterSecondLoop(run: seq<State>, c: nat) returns (run': seq<State>)
    requires IsRun(run) && Open(Last(run), c)
    requires var pc := Last(run).clients[c].pc; pc.Start? || pc.MakeGet? || pc.Idle? || pc.FirstGet? || pc.FirstPut?
    ensures IsRun(run') && run <= run' && OnlyClient(Last(run), Last(run'), c) && Open(Last(run'), c)
    ensures Last(run').clients[c].pc.AcquireGet?
  {
    run' := run;
    if Last(run').clients[c].pc.Start? {
      run' := Extend(run', Begin(c));
    }
    if Last(run').clients[c].pc.MakeGet? {
      run' := Extend(run', Try(c, Answered));
    }
    if Last(run').clients[c].pc.Idle? {
      run' := Extend(run', Begin(c));
    }
    if Last(run').clients[c].pc.FirstGet? {
      run' := Extend(run', Try(c, Answered));
    }
    run' := LeavePut(run', c);
  }

  /** Wherever a client is, if it neither holds the lock nor is stopped, an open lock becomes its own. */
  lemma AcquireFromAnywhere(run: seq<State>, c: nat) returns (run': seq<State>)
    requires IsRun(run) && Open(Last(run), c)
    requires var pc := Last(run).clients[c].pc; !pc.Held? && !pc.ReleaseGet? && !pc.Fatal?
    ensures IsRun(run') && run <= run' && OnlyClient(Last(run), Last(run'), c) && Last(run').clients[c].pc.Held?
    ensures Last(run).key in Last(run').kv && Last(run').kv[Last(run).key].value == Last(run).clients[c].id
  {
    run' := run;
    if InPut(Last(run').clients[c].pc) {
      run' := LeavePut(run', c);
    }
    if Last(run').clients[c].pc.Held? {
      return;
    }
    if !Last(run').clients[c].pc.AcquireGet? {
      run' := EnterSecondLoop(run', c);
    }
    run' := FinishAcquire(run', c);
  }

  /** From every run in which a client holds the lock, it can release it and any other client can then get it. */
  lemma LockIsHandedOn(run: seq<State>, i: nat, j: nat) returns (run': seq<State>)
    requires IsRun(run) && GoodIds(run[0]) && i < |Last(run).clients| && j < |Last(run).clients| && i != j
    requires Last(run).clients[i].pc.Held?
    ensures IsRun(run') && run <= run' && |Last(run').clients| == |Last(run).clients|
    ensures Last(run').clients[i].pc.Idle? && Last(run').clients[j].pc.Held?
    ensures Last(run).key in Last(run').kv && Last(run').kv[Last(run).key].value == Last(run).clients[j].id
  {
    InvRun(run, |run| - 1);
    assert ClientInv(Last(run).clients[i], Last(run).kv, Last(run).key);
    assert ClientInv(Last(run).clients[j], Last(run).kv, Last(run).key);
    LockIsSafe(run);
    run' := ReleaseAlone(run, i);
    run' := AcquireFromAnywhere(run', j);
  }

  /** Two clients with one identifier, or one using the unlocked mark as its identifier, can both
      hold the lock. */
  lemma BadIdsBreakExclusion(s: State, i: nat, j: nat) returns (run: seq<State>)
    requires Init(s) && i < |s.clients| && j < |s.clients| && i != j
    requires s.clients[i].id == s.clients[j].id || s.clients[i].id == UNLOCKED
    ensures IsRun(run) && run[0] == s && !Exclusive(Last(run))
  {
    run := [s];
    run := MakeAlone(run, i);
    run := AcquireAlone(run, i);
    run := MakeAlone(run, j);
    run := AcquireAlone(run, j);
    var e := Last(run);
    assert Holds(e.clients[i]) && Holds(e.clients[j]);
    assert if i < j then 0 <= i < j < |e.clients| else 0 <= j < i < |e.clients|;
  }

  /** Mutual exclusion in every run, exactly: there is at most one client, or the identifiers are
      distinct and none is the unlocked mark. */
  lemma ExclusionExactly(s: State)
    requires Init(s)
    ensures (forall run :: IsRun(run) && run[0] == s ==> Exclusive(Last(run))) <==> |s.clients| <= 1 || GoodIds(s)
  {
    if |s.clients| <= 1 || GoodIds(s) {
      forall run | IsRun(run) && run[0] == s ensures Exclusive(Last(run)) {
        if GoodIds(s) {
          LockIsSafe(run);
        } else {
          ClientsStay(run, |run| - 1);
        }
      }
    } else if exists i, j :: 0 <= i < j < |s.clients| && s.clients[i].id == s.clients[j].id {
      var i, j :| 0 <= i < j < |s.clients| && s.clients[i].id == s.clients[j].id;
      var run := BadIdsBreakExclusion(s, i, j);
    } else {
      var i :| 0 <= i < |s.clients| && s.clients[i].id == UNLOCKED;
      var run := BadIdsBreakExclusion(s, i, if i == 0 then 1 else 0);
    }
  }

  lemma {:induction false} ClientsStay(run: seq<State>, i: nat)
    requires IsRun(run) && i < |run|
    ensures |run[i].clients| == |run[0].clients|
  {
    if i > 0 {
      ClientsStay(run, i - 1);
      assert Next(run[i - 1], run[i - 1 + 1]);
    }
  }

  // --- The lock's own code, one client at a time, refines the steps above ---

  /** A client's attempts in turn, each after the requests other clerks got in before it. */
  ghost function Walk(c: Client, kv: Store<string>, key: string, net: seq<Attempt<string>>): Tried
    decreases |net|
  {
    if net == [] || !(InGet(c.pc) || InPut(c.pc)) then Tried(c, kv)
    else
      var r := TryOnce(c, PutAll(kv, net[0].others), key, net[0].fate);
      Walk(r.client, r.kv, key, net[1..])
  }

  lemma {:induction false} WalkOn(c: Client, kv: Store<string>, key: string,
                                  a: seq<Attempt<string>>, b: seq<Attempt<string>>)
    ensures var w := Walk(c, kv, key, a);
            Walk(c, kv, key, a + b) == Walk(w.client, w.kv, key, b)
    decreases |a|
  {
    if a == [] {
      assert a + b == b;
    } else if InGet(c.pc) || InPut(c.pc) {
      var r := TryOnce(c, PutAll(kv, a[0].others), key, a[0].fate);
      assert (a + b)[1..] == a[1..] + b;
      WalkOn(r.client, r.kv, key, a[1..], b);
    }
  }

  /** The attempts of a Get call take the client where the call's answer does. */
  lemma {:induction false} GetWalk(c: Client, kv: Store<string>, key: string, net: seq<Attempt<string>>)
    requires IsCall(net) && InGet(c.pc)
    ensures var m := StoreAtAnswer(kv, net);
            Walk(c, kv, key, net) == Tried(c.(pc := AfterGet(c, m, key)), m)
    decreases |net|
  {
    if net[0].fate != Answered {
      GetWalk(c, PutAll(kv, net[0].others), key, net[1..]);
    }
  }

  /** The attempts of a Put call take the client where the call's error does, and count as many
      unlocks as the call has effects. */
  lemma {:induction false} PutWalk(c: Client, kv: Store<string>, key: string, net: seq<Attempt<string>>)
    requires IsCall(net) && InPut(c.pc)
    ensures var o := PutRun(kv, Request(c, key), net, c.pc.resend);
            Walk(c, kv, key, net) == Tried(AfterCall(c, o), o.store)
    decreases |net|
  {
    if net[0].fate != Answered {
      var r := TryOnce(c, PutAll(kv, net[0].others), key, net[0].fate);
      PutWalk(r.client, r.kv, key, net[1..]);
      ResendSame(c, key);
      assert Walk(c, kv, key, net) == Walk(r.client, r.kv, key, net[1..]);
    }
  }

  /** Resending changes neither the request nor what its answers lead to. */
  lemma ResendSame(c: Client, key: string)
    requires InPut(c.pc)
    ensures var d := c.(pc := Resend(c.pc));
            && InPut(d.pc) && d.pc.resend && Request(d, key) == Request(c, key)
            && forall e :: AfterPut(d.pc, e) == AfterPut(c.pc, e)
  {
  }

  ghost function AfterCall(c: Client, o: PutOutcome<string>): Client
    requires InPut(c.pc)
  {
    if c.pc.ReleasePut? then Client(c.id, AfterPut(c.pc, o.err), c.released + 1, c.unlocks + o.applied)
    else c.(pc := AfterPut(c.pc, o.err))
  }

  /** How a method of the lock ended: it returned, the process exited, or the given rounds ran out. */
  datatype Ending = Returned | Exited | Waiting

  ghost function EndPc(e: Ending, returned: Pc, waiting: Pc): Pc {
    match e
    case Returned => returned
    case Exited => Fatal
    case Waiting => waiting
  }

  ghost predicate Calls(rounds: seq<Round>) {
    forall i :: 0 <= i < |rounds| ==> IsCall(rounds[i].put) && IsCall(rounds[i].get)
  }

  ghost predicate Current(kv: Store<string>, key: string, version: nat) {
    if key in kv then kv[key].version == version else version == 0
  }

  /** Nobody else writes the key meanwhile. */
  ghost predicate Unwritten(net: seq<Attempt<string>>, key: string) {
    forall i, p :: 0 <= i < |net| && p in net[i].others ==> p.key != key
  }

  class Lock {
    const ck: Clerk
    const clientID: string
    const lockKey: string

    ghost predicate Walks(c: Client, kv: Store<string>, net: seq<Attempt<string>>, c': Client)
      reads ck.server
    {
      Walk(c, kv, lockKey, net) == Tried(c', ck.server.kvmap)
    }

    method Read(ghost c: Client, net: seq<Attempt<string>>) returns (state: string, version: nat, err: Err)
      requires IsCall(net) && InGet(c.pc)
      modifies ck.server
      ensures Walks(c, old(ck.server.kvmap), net, c.(pc := AfterGet(c, ck.server.kvmap, lockKey)))
      ensures err == ErrNoKey <==> lockKey !in ck.server.kvmap
      ensures lockKey in ck.server.kvmap ==> ck.server.kvmap[lockKey] == Versioned(state, version)
    {
      GetWalk(c, ck.server.kvmap, lockKey, net);
      state, version, err := ck.Get(lockKey, net);
    }

    method Write(ghost c: Client, value: string, version: nat, net: seq<Attempt<string>>) returns (err: Err)
      requires IsCall(net) && InPut(c.pc) && !c.pc.resend && Request(c, lockKey) == PutArgs(lockKey, value, version)
      modifies ck.server
      ensures var o := PutRun(old(ck.server.kvmap), Request(c, lockKey), net, false);
              err == o.err && Walks(c, old(ck.server.kvmap), net, AfterCall(c, o))
      ensures err == OK ==> lockKey in ck.server.kvmap && ck.server.kvmap[lockKey] == Versioned(value, version + 1)
      ensures Current(old(ck.server.kvmap), lockKey, version) && Unwritten(net, lockKey) ==>
                lockKey in ck.server.kvmap && ck.server.kvmap[lockKey] == Versioned(value, version + 1)
    {
      if Current(ck.server.kvmap, lockKey, version) && Unwritten(net, lockKey) {
        AloneWrites(ck.server.kvmap, PutArgs(lockKey, value, version), net, false);
      }
      PutWalk(c, ck.server.kvmap, lockKey, net);
      err := ck.Put(PutArgs(lockKey, value, version), net);
    }

    /** MakeLock: a missing lock key is created unlocked. */
    constructor (ck: Clerk, id: string, l: string, round: Round)
      requires IsCall(round.get) && IsCall(round.put)
      modifies ck.server
      ensures this.ck == ck && clientID == id && lockKey == l
      ensures var found := l in StoreAtAnswer(old(ck.server.kvmap), round.get);
              Walks(Client(id, MakeGet, 0, 0), old(ck.server.kvmap), if found then round.get else round.get + round.put,
                    Client(id, Idle, 0, 0))
      ensures l !in StoreAtAnswer(old(ck.server.kvmap), round.get) && Unwritten(round.put, l) ==>
                l in ck.server.kvmap && ck.server.kvmap[l] == Versioned("unlocked", 1)
    {
      this.ck, clientID, lockKey := ck, id, l;
      new;
      ghost var c := Client(id, MakeGet, 0, 0);
      ghost var kv := ck.server.kvmap;
      GetWalk(c, kv, l, round.get);
      var _, _, err := Read(c, round.get);
      if err == ErrNoKey {
        WalkOn(c, kv, l, round.get, round.put);
        var _ := Write(c.(pc := MakePut(false)), UNLOCKED, 0, round.put);
      }
    }

    /** Acquire: both loops, as far as the given rounds go. The attempts made take the client, in the
        steps above, to holding the lock exactly when the method returns. */
    method Acquire(ghost c: Client, first: seq<Round>, second: seq<Round>)
        returns (e: Ending, ghost net: seq<Attempt<string>>)
      requires c.id == clientID && Calls(first) && Calls(second)
      modifies ck.server
      ensures Walks(c.(pc := FirstGet), old(ck.server.kvmap), net, c.(pc := EndPc(e, Held, FirstGet)))
           || Walks(c.(pc := FirstGet), old(ck.server.kvmap), net, c.(pc := EndPc(e, Held, AcquireGet)))
      ensures e == Returned ==> lockKey in ck.server.kvmap && ck.server.kvmap[lockKey].value == clientID
    {
      e, net := FirstLoop(c.(pc := FirstGet), first);
      if e != Returned {
        return;
      }
      ghost var kv, before := ck.server.kvmap, net;
      ghost var more;
      e, more := SecondLoop(c.(pc := AcquireGet), second);
      WalkOn(c.(pc := FirstGet), old(ck.server.kvmap), lockKey, before, more);
      net := before + more;
    }

    method FirstLoop(ghost c: Client, rounds: seq<Round>) returns (e: Ending, ghost net: seq<Attempt<string>>)
      requires c.id == clientID && c.pc == FirstGet && Calls(rounds)
      modifies ck.server
      ensures Walks(c, old(ck.server.kvmap), net, c.(pc := EndPc(e, AcquireGet, FirstGet)))
    {
      net := [];
      for i := 0 to |rounds|
        invariant Walks(c, old(ck.server.kvmap), net, c)
      {
        WalkOn(c, old(ck.server.kvmap), lockKey, net, rounds[i].get);
        var state, version, err := Read(c, rounds[i].get);
        net := net + rounds[i].get;
        if err == ErrNoKey {
          return Exited, net;
        }
        if state == UNLOCKED || state == clientID {
          WalkOn(c, old(ck.server.kvmap), lockKey, net, rounds[i].put);
          var _ := Write(c.(pc := FirstPut(version, false)), clientID, version, rounds[i].put);
          return Returned, net + rounds[i].put;
        }
      }
      e := Waiting;
    }

    method SecondLoop(ghost c: Client, rounds: seq<Round>) returns (e: Ending, ghost net: seq<Attempt<string>>)
      requires c.id == clientID && c.pc == AcquireGet && Calls(rounds)
      modifies ck.server
      ensures Walks(c, old(ck.server.kvmap), net, c.(pc := EndPc(e, Held, AcquireGet)))
      ensures e == Returned ==> lockKey in ck.server.kvmap && ck.server.kvmap[lockKey].value == clientID
    {
      net := [];
      for i := 0 to |rounds|
        invariant Walks(c, old(ck.server.kvmap), net, c)
      {
        WalkOn(c, old(ck.server.kvmap), lockKey, net, rounds[i].get);
        var state, version, err := Read(c, rounds[i].get);
        net := net + rounds[i].get;
        if err == ErrNoKey {
          return Exited, net;
        }
        if state == UNLOCKED || state == clientID {
          WalkOn(c, old(ck.server.kvmap), lockKey, net, rounds[i].put);
          var puterr := Write(c.(pc := AcquirePut(version, false)), clientID, version, rounds[i].put);
          net := net + rounds[i].put;
          if puterr == OK {
            return Returned, net;
          }
        }
      }
      e := Waiting;
    }

    /** Release: it returns exactly if it found its own identifier; the counted unlocks are the
        effects of its one Put call. */
    method Release(ghost c: Client, round: Round) returns (e: Ending, ghost net: seq<Attempt<string>>)
      requires c.id == clientID && IsCall(round.get) && IsCall(round.put)
      modifies ck.server
      ensures e == Returned || e == Exited
      ensures e == Exited ==> Walks(c.(pc := ReleaseGet), old(ck.server.kvmap), net, c.(pc := Fatal))
      ensures e == Returned ==>
                var m := StoreAtAnswer(old(ck.server.kvmap), round.get);
                && lockKey in m && m[lockKey].value == clientID
                && Walks(c.(pc := ReleaseGet), old(ck.server.kvmap), net,
                         AfterCall(c.(pc := ReleasePut(m[lockKey].version, false)),
                                   PutRun(m, PutArgs(lockKey, UNLOCKED, m[lockKey].version), round.put, false)))
      ensures e == Returned && Unwritten(round.put, lockKey) ==>
                var m := StoreAtAnswer(old(ck.server.kvmap), round.get);
                && lockKey in m && lockKey in ck.server.kvmap
                && ck.server.kvmap[lockKey] == Versioned("unlocked", m[lockKey].version + 1)
    {
      ghost var c0, kv := c.(pc := ReleaseGet), ck.server.kvmap;
      GetWalk(c0, kv, lockKey, round.get);
      var state, version, err := Read(c0, round.get);
      net := round.get;
      if err == ErrNoKey {
        return Exited, net;
      }
      if state == clientID {
        WalkOn(c0, kv, lockKey, round.get, round.put);
        var _ := Write(c.(pc := ReleasePut(version, false)), UNLOCKED, version, round.put);
        return Returned, net + round.put;
      } else {
        return Exited, net;
      }
    }
  }
}
