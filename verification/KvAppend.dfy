/** Clients appending to one shared list through conditional Puts over a lossy network, and the
    checker that inspects the list they leave behind. */
module KvAppend {
  import opened KvServer
  import opened KvClerk
  import opened Network

  const KEY := "k"

  datatype Entry = Entry(id: nat, n: nat)

  datatype ClntRes = ClntRes(nok: nat, nmaybe: nat)

  /** Between iterations, in the Get, in the Put of es at version ver (applied: it has already
      taken effect), finished, or stopped by a Get that found no key. */
  datatype Pc = Ready | Reading | Writing(es: seq<Entry>, ver: nat, resend: bool, applied: bool) | Finished | Fatal

  datatype Client = Client(i: nat, res: ClntRes, pc: Pc)

  datatype State = State(kv: Store<seq<Entry>>, clients: seq<Client>)

  datatype Action = Iterate(c: nat) | Stop(c: nat) | Try(c: nat, fate: Fate)

  ghost predicate Init(s: State) {
    && s.kv == map[KEY := Versioned([], 1)]
    && forall c :: 0 <= c < |s.clients| ==> s.clients[c] == Client(0, ClntRes(0, 0), Ready)
  }

  ghost predicate Enabled(s: State, a: Action) {
    && a.c < |s.clients|
    && var pc := s.clients[a.c].pc;
       match a
       case Iterate(_) => pc.Ready?
       case Stop(_) => pc.Ready?
       case Try(_, _) => pc.Writing? || pc.Reading?
  }

  function TryRead(me: nat, c: Client, kv: Store<seq<Entry>>, fate: Fate): Client
  {
    if fate == Answered then
      if KEY !in kv then c.(pc := Fatal)
      else c.(pc := Writing(kv[KEY].value + [Entry(me, c.i)], kv[KEY].version, false, false))
    else c
  }

  function Request(c: Client): PutArgs<seq<Entry>>
    requires c.pc.Writing?
  {
    PutArgs(KEY, c.pc.es, c.pc.ver)
  }

  /** The iteration ends on OK and on ErrMaybe; on any other error the client reads again. */
  function AfterWrite(c: Client, err: Err): Client {
    match err
    case OK => Client(c.i + 1, c.res.(nok := c.res.nok + 1), Ready)
    case ErrMaybe => Client(c.i + 1, c.res.(nmaybe := c.res.nmaybe + 1), Ready)
    case _ => c.(pc := Reading)
  }

  function TryWrite(c: Client, kv: Store<seq<Entry>>, fate: Fate): Client
    requires c.pc.Writing?
  {
    var e := PutErr(kv, Request(c));
    if fate == Answered then AfterWrite(c, Conclude(c.pc.resend, e))
    else c.(pc := c.pc.(resend := true, applied := c.pc.applied || (fate == ReplyLost && e == OK)))
  }

  ghost function Do(s: State, a: Action): State
    requires Enabled(s, a)
  {
    var c := s.clients[a.c];
    match a
    case Iterate(me) => s.(clients := s.clients[me := c.(pc := Reading)])
    case Stop(me) => s.(clients := s.clients[me := c.(pc := Finished)])
    case Try(me, fate) =>
      if c.pc.Reading? then s.(clients := s.clients[me := TryRead(me, c, s.kv, fate)])
      else State(if fate == Dropped then s.kv else PutStore(s.kv, Request(c)),
                 s.clients[me := TryWrite(c, s.kv, fate)])
  }

  ghost predicate Next(s: State, s': State) {
    exists a :: Enabled(s, a) && s' == Do(s, a)
  }

  ghost predicate IsRun(run: seq<State>) {
    && run != [] && Init(run[0])
    && forall i :: 0 <= i < |run| - 1 ==> Next(run[i], run[i + 1])
  }

  ghost function Last(run: seq<State>): State
    requires run != []
  {
    run[|run| - 1]
  }

  // --- The steps of one call are the clerk's loop ---

  datatype Tried = Tried(client: Client, kv: Store<seq<Entry>>)

  /** A client's attempts in turn, each after the requests other clerks got in before it. */
  ghost function Walk(me: nat, c: Client, kv: Store<seq<Entry>>, net: seq<Attempt<seq<Entry>>>): Tried
    decreases |net|
  {
    if net == [] || !(c.pc.Reading? || c.pc.Writing?) then Tried(c, kv)
    else
      var m := PutAll(kv, net[0].others);
      if c.pc.Reading? then Walk(me, TryRead(me, c, m, net[0].fate), m, net[1..])
      else
        Walk(me, TryWrite(c, m, net[0].fate), if net[0].fate == Dropped then m else PutStore(m, Request(c)), net[1..])
  }

  /** The attempts of a Get take the client where the store the clerk's Get loop reads does. */
  lemma {:induction false} StepsOfRead(me: nat, c: Client, kv: Store<seq<Entry>>, net: seq<Attempt<seq<Entry>>>)
    requires IsCall(net) && c.pc.Reading?
    ensures var m := StoreAtAnswer(kv, net);
            Walk(me, c, kv, net) == Tried(TryRead(me, c, m, Answered), m)
    decreases |net|
  {
    if net[0].fate == Answered {
      assert net[1..] == [];
    } else {
      StepsOfRead(me, c, PutAll(kv, net[0].others), net[1..]);
    }
  }

  /** The attempts of a Put take the client where the error of the clerk's Put loop does. */
  lemma {:induction false} StepsOfWrite(me: nat, c: Client, kv: Store<seq<Entry>>, net: seq<Attempt<seq<Entry>>>)
    requires IsCall(net) && c.pc.Writing?
    ensures var r := PutRun(kv, Request(c), net, c.pc.resend);
            Walk(me, c, kv, net) == Tried(AfterWrite(c, r.err), r.store)
    decreases |net|
  {
    var m := PutAll(kv, net[0].others);
    if net[0].fate == Answered {
      assert net[1..] == [];
    } else {
      var c' := TryWrite(c, m, net[0].fate);
      assert c'.pc.Writing? && c'.pc.resend && Request(c') == Request(c);
      StepsOfWrite(me, c', if net[0].fate == Dropped then m else PutStore(m, Request(c)), net[1..]);
      assert forall e :: AfterWrite(c', e) == AfterWrite(c, e).(pc := AfterWrite(c', e).pc);
    }
  }

  /** The iteration numbers of one client's entries, in list order. */
  ghost function NsOf(es: seq<Entry>, id: nat): seq<nat>
    decreases |es|
  {
    if es == [] then [] else NsOf(es[..|es| - 1], id) + if es[|es| - 1].id == id then [es[|es| - 1].n] else []
  }

  ghost predicate Increasing(ns: seq<nat>) {
    forall i, j :: 0 <= i < j < |ns| ==> ns[i] < ns[j]
  }

  /** The smallest iteration number that may come next. */
  ghost function Bound(ns: seq<nat>): nat {
    if ns == [] then 0 else ns[|ns| - 1] + 1
  }

  lemma NsOfAppend(es: seq<Entry>, e: Entry, id: nat)
    ensures NsOf(es + [e], id) == NsOf(es, id) + if e.id == id then [e.n] else []
  {
    assert (es + [e])[..|es + [e]| - 1] == es;
  }

  lemma {:induction false} BoundCovers(ns: seq<nat>)
    requires Increasing(ns)
    ensures |ns| <= Bound(ns)
    decreases |ns|
  {
    if ns != [] {
      BoundCovers(ns[..|ns| - 1]);
    }
  }

  /** Exclusive upper bound for the iteration numbers a client has in the list. */
  function Limit(c: Client): nat {
    if c.pc.Writing? && c.pc.applied then c.i + 1 else c.i
  }

  ghost predicate Counted(c: Client, ns: seq<nat>) {
    && c.i == c.res.nok + c.res.nmaybe
    && Increasing(ns)
    && Bound(ns) <= Limit(c)
    && |ns| >= c.res.nok + if c.pc.Writing? && c.pc.applied then 1 else 0
  }

  /** What a client's Put under way can still do. */
  ghost predicate Pending(me: nat, c: Client, v: Versioned<seq<Entry>>) {
    && !c.pc.Fatal?
    && (c.pc.Writing? ==>
      && c.pc.ver <= v.version
      && (c.pc.applied ==> c.pc.resend && c.pc.ver < v.version)
      && (c.pc.ver == v.version ==> c.pc.es == v.value + [Entry(me, c.i)]))
  }

  ghost predicate Inv(s: State) {
    && KEY in s.kv
    && s.kv[KEY].version == |s.kv[KEY].value| + 1
    && (forall e :: e in s.kv[KEY].value ==> e.id < |s.clients|)
    && forall c :: 0 <= c < |s.clients| ==>
         Counted(s.clients[c], NsOf(s.kv[KEY].value, c)) && Pending(c, s.clients[c], s.kv[KEY])
  }

  /** A Put that takes effect appends exactly its own entry. */
  lemma WriteAppends(s: State, me: nat)
    requires Inv(s) && me < |s.clients| && s.clients[me].pc.Writing?
    ensures var c := s.clients[me]; var v := s.kv[KEY];
            PutStore(s.kv, Request(c)) ==
              if c.pc.ver == v.version then s.kv[KEY := Versioned(v.value + [Entry(me, c.i)], v.version + 1)] else s.kv
  {
  }

  lemma NextNumber(ns: seq<nat>, n: nat)
    requires Increasing(ns) && Bound(ns) <= n
    ensures Increasing(ns + [n]) && Bound(ns + [n]) == n + 1 && |ns + [n]| == |ns| + 1
  {
    var ns' := ns + [n];
    forall i, j | 0 <= i < j < |ns'| ensures ns'[i] < ns'[j] {
      assert j == |ns| ==> ns[i] <= ns[|ns| - 1];
    }
  }

  /** The writing client's own counts after an attempt. */
  lemma OwnCounts(me: nat, c: Client, v: Versioned<seq<Entry>>, kv: Store<seq<Entry>>, fate: Fate)
    requires KEY in kv && kv[KEY] == v && v.version == |v.value| + 1 && c.pc.Writing?
    requires Counted(c, NsOf(v.value, me)) && Pending(me, c, v)
    ensures var hit := fate != Dropped && c.pc.ver == v.version;
            var v' := if hit then Versioned(v.value + [Entry(me, c.i)], v.version + 1) else v;
            Counted(TryWrite(c, kv, fate), NsOf(v'.value, me)) && Pending(me, TryWrite(c, kv, fate), v')
  {
    if fate != Dropped && c.pc.ver == v.version {
      NsOfAppend(v.value, Entry(me, c.i), me);
      NextNumber(NsOf(v.value, me), c.i);
    }
  }

  /** Another client's entry leaves a client's counts and its Put as they are. */
  lemma OthersCount(me: nat, c: Client, v: Versioned<seq<Entry>>, e: Entry)
    requires Counted(c, NsOf(v.value, me)) && Pending(me, c, v) && e.id != me
    ensures var v' := Versioned(v.value + [e], v.version + 1);
            Counted(c, NsOf(v'.value, me)) && Pending(me, c, v')
  {
    NsOfAppend(v.value, e, me);
  }

  /** What holds of the list and of one client. */
  ghost predicate ClientRight(s: State, c: nat)
    requires c < |s.clients| && KEY in s.kv
  {
    Counted(s.clients[c], NsOf(s.kv[KEY].value, c)) && Pending(c, s.clients[c], s.kv[KEY])
  }

  lemma WriteKeeps(s: State, me: nat, fate: Fate, c: nat)
    requires Inv(s) && Enabled(s, Try(me, fate)) && s.clients[me].pc.Writing? && c < |s.clients|
    ensures KEY in Do(s, Try(me, fate)).kv && ClientRight(Do(s, Try(me, fate)), c)
  {
    var d := s.clients[me];
    WriteAppends(s, me);
    if c == me {
      OwnCounts(me, d, s.kv[KEY], s.kv, fate);
    } else {
      assert Counted(s.clients[c], NsOf(s.kv[KEY].value, c)) && Pending(c, s.clients[c], s.kv[KEY]);
      OthersCount(c, s.clients[c], s.kv[KEY], Entry(me, d.i));
    }
  }

  lemma InvStep(s: State, a: Action)
    requires Inv(s) && Enabled(s, a)
    ensures Inv(Do(s, a))
  {
    var s' := Do(s, a);
    if a.Try? && s.clients[a.c].pc.Writing? {
      WriteAppends(s, a.c);
      forall c: nat | c < |s'.clients|
        ensures Counted(s'.clients[c], NsOf(s'.kv[KEY].value, c)) && Pending(c, s'.clients[c], s'.kv[KEY])
      {
        WriteKeeps(s, a.c, a.fate, c);
      }
    }
  }

  lemma {:induction false} InvRun(run: seq<State>, i: nat)
    requires IsRun(run) && i < |run|
    ensures Inv(run[i])
  {
    if i > 0 {
      InvRun(run, i - 1);
      assert Next(run[i - 1], run[i - 1 + 1]);
      var a :| Enabled(run[i - 1], a) && run[i] == Do(run[i - 1], a);
      InvStep(run[i - 1], a);
    } else {
      forall c | 0 <= c < |run[0].clients|
        ensures Counted(run[0].clients[c], NsOf(run[0].kv[KEY].value, c))
      {
        assert NsOf([], c) == [];
      }
    }
  }

  // --- The checker ---

  datatype Verdict = Pass | OldPut | WrongLength | TooManySkipped | TooManyPuts

  /** What a list must satisfy: each client's numbers increase, the length matches the version, gaps
      are covered by ErrMaybe answers, and no number exceeds the iterations made. */
  ghost predicate GoodList(es: seq<Entry>, rs: seq<ClntRes>, ver: nat) {
    && |es| + 1 == ver
    && forall c :: 0 <= c < |rs| ==> GoodClient(NsOf(es, c), rs[c])
  }

  ghost predicate GoodClient(ns: seq<nat>, r: ClntRes) {
    Increasing(ns) && Bound(ns) - |ns| <= r.nmaybe && Bound(ns) <= r.nok + r.nmaybe
  }

  lemma {:induction false} NsOfPrefix(es: seq<Entry>, k: nat, id: nat)
    requires k <= |es|
    ensures NsOf(es[..k], id) <= NsOf(es, id)
    decreases |es|
  {
    if k < |es| {
      NsOfPrefix(es[..|es| - 1], k, id);
      assert es[..|es| - 1][..k] == es[..k];
    } else {
      assert es[..k] == es;
    }
  }

  /** The scan state after a prefix of the list. */
  ghost predicate Scanned(wanted: seq<nat>, skipped: seq<nat>, es: seq<Entry>, n: nat) {
    && |wanted| == |skipped| == n
    && forall c :: 0 <= c < n ==>
         var ns := NsOf(es, c);
         Increasing(ns) && wanted[c] == Bound(ns) && skipped[c] == Bound(ns) - |ns|
  }

  /** One more entry of the same client keeps the numbers increasing exactly when it is not below
      the bound. */
  lemma IncreasingAppend(ns: seq<nat>, n: nat)
    requires Increasing(ns)
    ensures Increasing(ns + [n]) <==> Bound(ns) <= n
  {
    var ns' := ns + [n];
    if Bound(ns) > n {
      assert ns'[|ns| - 1] >= ns'[|ns|];
    }
  }

  lemma ScanClient(wanted: nat, skipped: nat, es: seq<Entry>, e: Entry, c: nat)
    requires Increasing(NsOf(es, c)) && wanted == Bound(NsOf(es, c)) && skipped == Bound(NsOf(es, c)) - |NsOf(es, c)|
    ensures var ns := NsOf(es + [e], c);
            if e.id != c then Increasing(ns) && wanted == Bound(ns) && skipped == Bound(ns) - |ns|
            else (Increasing(ns) <==> wanted <= e.n)
                 && (wanted <= e.n ==> e.n + 1 == Bound(ns) && skipped + (e.n - wanted) == Bound(ns) - |ns|)
  {
    NsOfAppend(es, e, c);
    IncreasingAppend(NsOf(es, c), e.n);
  }

  lemma ScanOne(wanted: seq<nat>, skipped: seq<nat>, es: seq<Entry>, e: Entry, n: nat)
    requires Scanned(wanted, skipped, es, n) && e.id < n
    ensures wanted[e.id] > e.n <==> !Increasing(NsOf(es + [e], e.id))
    ensures wanted[e.id] <= e.n ==>
              Scanned(wanted[e.id := e.n + 1], skipped[e.id := skipped[e.id] + (e.n - wanted[e.id])], es + [e], n)
  {
    ScanClient(wanted[e.id], skipped[e.id], es, e, e.id);
    if wanted[e.id] <= e.n {
      var wanted', skipped' := wanted[e.id := e.n + 1], skipped[e.id := skipped[e.id] + (e.n - wanted[e.id])];
      forall c | 0 <= c < n
        ensures var ms := NsOf(es + [e], c);
                Increasing(ms) && wanted'[c] == Bound(ms) && skipped'[c] == Bound(ms) - |ms|
      {
        ScanClient(wanted[c], skipped[c], es, e, c);
      }
    }
  }

  /** The test's checker: it passes exactly the good lists. */
  method CheckAppends(es: seq<Entry>, nclnt: nat, rs: seq<ClntRes>, ver: nat) returns (r: Verdict)
    requires |rs| == nclnt && forall e :: e in es ==> e.id < nclnt
    ensures r == Pass <==> GoodList(es, rs, ver)
    ensures r == OldPut <==> exists c :: 0 <= c < nclnt && !Increasing(NsOf(es, c))
    ensures r == WrongLength ==> |es| + 1 != ver
    ensures r == TooManySkipped ==> exists c :: 0 <= c < nclnt && Bound(NsOf(es, c)) - |NsOf(es, c)| > rs[c].nmaybe
    ensures r == TooManyPuts ==> exists c :: 0 <= c < nclnt && Bound(NsOf(es, c)) > rs[c].nok + rs[c].nmaybe
  {
    var ok, wanted, skipped := ScanEntries(es, nclnt);
    if !ok {
      return OldPut;
    }
    if |es| + 1 != ver {
      return WrongLength;
    }
    r := Judge(es, wanted, skipped, rs);
  }

  /** The first loop: it goes through unless some client's numbers do not increase. */
  method ScanEntries(es: seq<Entry>, nclnt: nat) returns (ok: bool, wanted: seq<nat>, skipped: seq<nat>)
    requires forall e :: e in es ==> e.id < nclnt
    ensures ok ==> Scanned(wanted, skipped, es, nclnt)
    ensures !ok ==> exists c :: 0 <= c < nclnt && !Increasing(NsOf(es, c))
  {
    wanted, skipped := seq(nclnt, _ => 0), seq(nclnt, _ => 0);
    for k := 0 to |es|
      invariant Scanned(wanted, skipped, es[..k], nclnt)
    {
      var e := es[k];
      assert e in es && es[..k + 1] == es[..k] + [e];
      ScanOne(wanted, skipped, es[..k], e, nclnt);
      if wanted[e.id] > e.n {
        NotIncreasing(es, k, e.id);
        return false, wanted, skipped;
      } else if wanted[e.id] == e.n {
        wanted := wanted[e.id := wanted[e.id] + 1];
        assert skipped[e.id := skipped[e.id] + 0] == skipped;
      } else {
        var s := e.n - wanted[e.id];
        wanted := wanted[e.id := e.n + 1];
        skipped := skipped[e.id := skipped[e.id] + s];
      }
    }
    assert es[..|es|] == es;
    ok := true;
  }

  lemma NotIncreasing(es: seq<Entry>, k: nat, id: nat)
    requires k < |es| && !Increasing(NsOf(es[..k + 1], id))
    ensures !Increasing(NsOf(es, id))
  {
    NsOfPrefix(es, k + 1, id);
    var ns, all := NsOf(es[..k + 1], id), NsOf(es, id);
    var i, j :| 0 <= i < j < |ns| && ns[i] >= ns[j];
    assert all[i] == ns[i] && all[j] == ns[j];
  }

  /** The second loop: gaps and totals. */
  method Judge(es: seq<Entry>, wanted: seq<nat>, skipped: seq<nat>, rs: seq<ClntRes>) returns (r: Verdict)
    requires Scanned(wanted, skipped, es, |rs|)
    ensures r == Pass || r == TooManySkipped || r == TooManyPuts
    ensures r == TooManySkipped ==> exists c :: 0 <= c < |rs| && Bound(NsOf(es, c)) - |NsOf(es, c)| > rs[c].nmaybe
    ensures r == TooManyPuts ==> exists c :: 0 <= c < |rs| && Bound(NsOf(es, c)) > rs[c].nok + rs[c].nmaybe
    ensures r == Pass <==> forall c :: 0 <= c < |rs| ==> GoodClient(NsOf(es, c), rs[c])
  {
    for c := 0 to |rs|
      invariant forall d :: 0 <= d < c ==> GoodClient(NsOf(es, d), rs[d])
    {
      if skipped[c] > rs[c].nmaybe {
        assert !GoodClient(NsOf(es, c), rs[c]);
        return TooManySkipped;
      }
      if wanted[c] > rs[c].nok + rs[c].nmaybe {
        assert !GoodClient(NsOf(es, c), rs[c]);
        return TooManyPuts;
      }
    }
    return Pass;
  }

  /** In every interleaving, once all clients have finished, the list they leave satisfies the
      checker, with each client's own counts of OK and ErrMaybe answers. */
  lemma AppendersPass(run: seq<State>, rs: seq<ClntRes>)
    requires IsRun(run) && |rs| == |Last(run).clients|
    requires forall c :: 0 <= c < |rs| ==> Last(run).clients[c].pc.Finished? && rs[c] == Last(run).clients[c].res
    ensures KEY in Last(run).kv
    ensures forall e :: e in Last(run).kv[KEY].value ==> e.id < |rs|
    ensures GoodList(Last(run).kv[KEY].value, rs, Last(run).kv[KEY].version)
  {
    InvRun(run, |run| - 1);
    var s := Last(run);
    forall c | 0 <= c < |rs| ensures GoodClient(NsOf(s.kv[KEY].value, c), rs[c]) {
      assert Counted(s.clients[c], NsOf(s.kv[KEY].value, c));
      BoundCovers(NsOf(s.kv[KEY].value, c));
    }
  }

  /** In every state on the way, each client's numbers increase, the length follows the
      version, and no client has been stopped by a missing key. */
  lemma ListShape(run: seq<State>, id: nat)
    requires IsRun(run) && id < |Last(run).clients|
    ensures KEY in Last(run).kv && Last(run).kv[KEY].version == |Last(run).kv[KEY].value| + 1
    ensures Increasing(NsOf(Last(run).kv[KEY].value, id)) && !Last(run).clients[id].pc.Fatal?
  {
    InvRun(run, |run| - 1);
    assert Counted(Last(run).clients[id], NsOf(Last(run).kv[KEY].value, id));
    assert Pending(id, Last(run).clients[id], Last(run).kv[KEY]);
  }

  // --- Without losses the counts are exact ---

  ghost predicate NextAnswered(s: State, s': State) {
    exists a :: Enabled(s, a) && (a.Try? ==> a.fate == Answered) && s' == Do(s, a)
  }

  ghost predicate Certain(c: Client, ns: seq<nat>) {
    && c.res.nmaybe == 0 && |ns| == c.res.nok && (c.pc.Writing? ==> !c.pc.resend && !c.pc.applied)
  }

  ghost predicate AllCertain(s: State) {
    KEY in s.kv && forall c :: 0 <= c < |s.clients| ==> Certain(s.clients[c], NsOf(s.kv[KEY].value, c))
  }

  lemma CertainStep(s: State, a: Action)
    requires Inv(s) && AllCertain(s) && Enabled(s, a) && (a.Try? ==> a.fate == Answered)
    ensures AllCertain(Do(s, a))
  {
    var s' := Do(s, a);
    if a.Try? && s.clients[a.c].pc.Writing? {
      WriteAppends(s, a.c);
      forall c: nat | c < |s'.clients| ensures Certain(s'.clients[c], NsOf(s'.kv[KEY].value, c)) {
        assert Certain(s.clients[c], NsOf(s.kv[KEY].value, c));
        NsOfAppend(s.kv[KEY].value, Entry(a.c, s.clients[a.c].i), c);
      }
    }
  }

  /** A run in which every attempt is answered. */
  ghost predicate IsReliable(run: seq<State>) {
    && run != [] && Init(run[0])
    && forall i :: 0 <= i < |run| - 1 ==> NextAnswered(run[i], run[i + 1])
  }

  lemma CertainNext(s: State, s': State)
    requires Inv(s) && AllCertain(s) && NextAnswered(s, s')
    ensures Inv(s') && AllCertain(s')
  {
    var a :| Enabled(s, a) && (a.Try? ==> a.fate == Answered) && s' == Do(s, a);
    CertainStep(s, a);
    InvStep(s, a);
  }

  lemma StartsCertain(s: State)
    requires Init(s)
    ensures Inv(s) && AllCertain(s)
  {
    forall c | 0 <= c < |s.clients|
      ensures Counted(s.clients[c], NsOf(s.kv[KEY].value, c)) && Certain(s.clients[c], NsOf(s.kv[KEY].value, c))
    {
      assert NsOf([], c) == [];
    }
  }

  lemma {:induction false} CertainRun(run: seq<State>, i: nat)
    requires IsReliable(run) && i < |run|
    ensures Inv(run[i]) && AllCertain(run[i])
  {
    if i == 0 {
      StartsCertain(run[0]);
    } else {
      CertainRun(run, i - 1);
      assert NextAnswered(run[i - 1], run[i - 1 + 1]);
      CertainNext(run[i - 1], run[i]);
    }
  }

  /** In every run without losses no client is ever unsure, and each has exactly its iterations in the list, in order:
      the k-th of its entries is its k-th iteration. */
  lemma ReliableAppends(run: seq<State>, c: nat, k: nat)
    requires IsReliable(run) && c < |Last(run).clients|
    ensures KEY in Last(run).kv
    ensures var d, ns := Last(run).clients[c], NsOf(Last(run).kv[KEY].value, c);
            && d.res == ClntRes(d.i, 0) && |ns| == d.i && (k < |ns| ==> ns[k] == k)
  {
    CertainRun(run, |run| - 1);
    var d, ns := Last(run).clients[c], NsOf(Last(run).kv[KEY].value, c);
    assert Certain(d, ns) && Counted(d, ns);
    if k < |ns| {
      Dense(ns, k);
    }
  }

  /** Increasing numbers below their count are all the numbers below it. */
  lemma {:induction false} Dense(ns: seq<nat>, k: nat)
    requires Increasing(ns) && Bound(ns) <= |ns| && k < |ns|
    ensures ns[k] == k
    decreases |ns|
  {
    var init := ns[..|ns| - 1];
    BoundCovers(init);
    if k < |ns| - 1 {
      Dense(init, k);
    }
  }
}
