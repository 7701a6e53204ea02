/** The retrying clerk, one call at a time, against a server that other clerks
    write to between any two attempts, and the put loop built on it. */
module KvClerk {
  import opened KvServer
  import opened Network

  /** One attempt: the requests of other clerks the server runs first, then its own fate. */
  datatype Attempt<V> = Attempt(others: seq<PutArgs<V>>, fate: Fate)

  /** The attempts of one returning call: all unanswered but the last. */
  ghost predicate IsCall<V>(net: seq<Attempt<V>>) {
    && net != []
    && net[|net| - 1].fate == Answered
    && forall i :: 0 <= i < |net| - 1 ==> net[i].fate != Answered
  }

  function PutAll<V>(m: Store<V>, puts: seq<PutArgs<V>>): Store<V>
    decreases |puts|
  {
    if puts == [] then m else PutAll(PutStore(m, puts[0]), puts[1..])
  }

  /** The ErrMaybe rule: a version error that answers a resend is not conclusive. */
  function Conclude(resend: bool, e: Err): Err {
    if resend && e == ErrVersion then ErrMaybe else e
  }

  /** Result of a Put call: final store, error reported, how often the call changed the store. */
  datatype PutOutcome<V> = PutOutcome(store: Store<V>, err: Err, applied: nat)

  ghost function PutRun<V>(m: Store<V>, a: PutArgs<V>, net: seq<Attempt<V>>, resend: bool): PutOutcome<V>
    requires IsCall(net)
    decreases |net|
  {
    var m1 := PutAll(m, net[0].others);
    var here := if net[0].fate != Dropped && PutErr(m1, a) == OK then 1 else 0;
    var m2 := if net[0].fate != Dropped then PutStore(m1, a) else m1;
    if net[0].fate == Answered then
      PutOutcome(m2, Conclude(resend, PutErr(m1, a)), here)
    else
      var rest := PutRun(m2, a, net[1..], true);
      rest.(applied := here + rest.applied)
  }

  lemma {:induction false} PutAllEvolves<V(!new)>(m: Store<V>, puts: seq<PutArgs<V>>)
    requires Positive(m)
    ensures Positive(PutAll(m, puts)) && Evolves(m, PutAll(m, puts))
    decreases |puts|
  {
    if puts != [] {
      PutMovesOneVersion(m, puts[0], puts[0].key);
      PutAllEvolves(PutStore(m, puts[0]), puts[1..]);
      EvolvesTransitive(m, PutStore(m, puts[0]), PutAll(m, puts));
    }
  }

  /** After the key has passed the requested version no further attempt can apply. */
  lemma {:induction false} SpentRequestNeverApplies<V(!new)>(m: Store<V>, a: PutArgs<V>, net: seq<Attempt<V>>)
    requires IsCall(net) && Positive(m) && VersionOf(m, a.key) > a.version
    ensures PutRun(m, a, net, true).applied == 0
    ensures PutRun(m, a, net, true).err == ErrMaybe
    ensures Positive(PutRun(m, a, net, true).store) && Evolves(m, PutRun(m, a, net, true).store)
    decreases |net|
  {
    var m1 := PutAll(m, net[0].others);
    PutAllEvolves(m, net[0].others);
    assert a.key in m && VersionOf(m1, a.key) > a.version;
    assert PutErr(m1, a) == ErrVersion;
    if net[0].fate != Answered {
      SpentRequestNeverApplies(m1, a, net[1..]);
      EvolvesTransitive(m, m1, PutRun(m, a, net, true).store);
    }
  }

  /** At most once, and what each reply tells: OK means applied exactly once, ErrVersion and
      ErrNoKey mean never, and ErrMaybe is reported only by a call that resent. */
  lemma {:induction false} PutIsTruthful<V(!new)>(m: Store<V>, a: PutArgs<V>, net: seq<Attempt<V>>, resend: bool)
    requires IsCall(net) && Positive(m)
    ensures var r := PutRun(m, a, net, resend);
            && r.applied <= 1
            && (r.err == OK ==> r.applied == 1)
            && (r.err == ErrVersion || r.err == ErrNoKey ==> r.applied == 0)
            && (r.err == ErrVersion ==> !resend && |net| == 1)
            && (r.err == ErrMaybe ==> resend || |net| > 1)
            && Positive(r.store) && Evolves(m, r.store)
    ensures var r := PutRun(m, a, net, resend);
            && (a.version == 0 || a.key in m ==> r.err != ErrNoKey)
            && (r.err != ErrNoKey ==> a.key in r.store)
            && (r.err == OK ==> a.key in r.store && r.store[a.key] == Versioned(a.value, a.version + 1))
    decreases |net|
  {
    var m1 := PutAll(m, net[0].others);
    PutAllEvolves(m, net[0].others);
    PutMovesOneVersion(m1, a, a.key);
    var m2 := if net[0].fate != Dropped then PutStore(m1, a) else m1;
    EvolvesTransitive(m, m1, m2);
    if net[0].fate != Answered {
      if net[0].fate == ReplyLost && PutErr(m1, a) == OK {
        SpentRequestNeverApplies(m2, a, net[1..]);
        assert a.key in m2;
      } else {
        PutIsTruthful(m2, a, net[1..], true);
      }
      EvolvesTransitive(m, m2, PutRun(m, a, net, resend).store);
    }
  }

  /** The store the answered attempt of a Put call meets. */
  ghost function StoreMet<V>(m: Store<V>, a: PutArgs<V>, net: seq<Attempt<V>>): Store<V>
    requires IsCall(net)
    decreases |net|
  {
    var m1 := PutAll(m, net[0].others);
    if net[0].fate == Answered then m1
    else StoreMet(if net[0].fate == Dropped then m1 else PutStore(m1, a), a, net[1..])
  }

  /** When each answer is given, by what the answered attempt met: OK if and only if it found the requested version,
      and then it, and only it, wrote; ErrNoKey if and only if it found no key and one was expected; with another
      version, ErrVersion if the call never resent and ErrMaybe if it did. */
  lemma {:induction false} AnswerExactly<V(!new)>(m: Store<V>, a: PutArgs<V>, net: seq<Attempt<V>>, resend: bool)
    requires IsCall(net)
    ensures var r := PutRun(m, a, net, resend); var met := StoreMet(m, a, net);
            && (r.err == OK <==> if a.key in met then met[a.key].version == a.version else a.version == 0)
            && (r.err == ErrNoKey <==> a.key !in met && a.version != 0)
            && (r.err == ErrMaybe <==> (resend || |net| > 1) && a.key in met && met[a.key].version != a.version)
            && (r.err == ErrVersion <==> !resend && |net| == 1 && a.key in met && met[a.key].version != a.version)
            && r.store == if r.err == OK then met[a.key := Versioned(a.value, a.version + 1)] else met
    decreases |net|
  {
    if net[0].fate != Answered {
      var m1 := PutAll(m, net[0].others);
      AnswerExactly(if net[0].fate == Dropped then m1 else PutStore(m1, a), a, net[1..], true);
    }
  }

  /** A call whose earlier attempts never reached the server, on a key nobody else writes, is answered as its one
      attempt deserves; only a version error is no longer certain. */
  lemma {:induction false} DroppedChangesNothing<V(!new)>(m: Store<V>, a: PutArgs<V>, net: seq<Attempt<V>>,
                                                          resend: bool)
    requires IsCall(net) && forall i :: 0 <= i < |net| - 1 ==> net[i].fate == Dropped
    requires forall i, p :: 0 <= i < |net| && p in net[i].others ==> p.key != a.key
    ensures var r := PutRun(m, a, net, resend); var one := PutErr(m, a);
            r.err == if one == ErrVersion && (resend || |net| > 1) then ErrMaybe else one
    decreases |net|
  {
    assert net[0] in net && forall p :: p in net[0].others ==> p.key != a.key;
    OthersLeaveKey(m, net[0].others, a.key);
    var m1 := PutAll(m, net[0].others);
    assert PutErr(m1, a) == PutErr(m, a);
    if net[0].fate != Answered {
      DroppedChangesNothing(m1, a, net[1..], true);
    }
  }

  /** A Put of the current version, 0 for an absent key, on a key nobody else writes, ends with its value stored,
      whatever is lost. */
  lemma {:induction false} AloneWrites<V(!new)>(m: Store<V>, a: PutArgs<V>, net: seq<Attempt<V>>, resend: bool)
    requires IsCall(net) && if a.key in m then m[a.key].version == a.version else a.version == 0
    requires forall i, p :: 0 <= i < |net| && p in net[i].others ==> p.key != a.key
    ensures var r := PutRun(m, a, net, resend);
            a.key in r.store && r.store[a.key] == Versioned(a.value, a.version + 1)
    decreases |net|
  {
    OthersLeaveKey(m, net[0].others, a.key);
    var m1 := PutAll(m, net[0].others);
    if net[0].fate == Dropped {
      AloneWrites(m1, a, net[1..], true);
    } else if net[0].fate == ReplyLost {
      AloneStays(PutStore(m1, a), a, net[1..]);
    }
  }

  lemma {:induction false} AloneStays<V(!new)>(m: Store<V>, a: PutArgs<V>, net: seq<Attempt<V>>)
    requires IsCall(net) && a.key in m && m[a.key].version == a.version + 1
    requires forall i, p :: 0 <= i < |net| && p in net[i].others ==> p.key != a.key
    ensures var r := PutRun(m, a, net, true);
            a.key in r.store && r.store[a.key] == m[a.key]
    decreases |net|
  {
    OthersLeaveKey(m, net[0].others, a.key);
    if net[0].fate != Answered {
      AloneStays(PutAll(m, net[0].others), a, net[1..]);
    }
  }

  lemma {:induction false} OthersLeaveKey<V(!new)>(m: Store<V>, puts: seq<PutArgs<V>>, key: string)
    requires forall p :: p in puts ==> p.key != key
    ensures (key in PutAll(m, puts) <==> key in m) && (key in m ==> PutAll(m, puts)[key] == m[key])
    decreases |puts|
  {
    if puts != [] {
      assert puts[0] in puts;
      OthersLeaveKey(PutStore(m, puts[0]), puts[1..], key);
    }
  }

  /** The store a Get call reads: what the other clerks' requests left by its last attempt. */
  ghost function StoreAtAnswer<V>(m: Store<V>, net: seq<Attempt<V>>): Store<V>
    decreases |net|
  {
    if net == [] then m else StoreAtAnswer(PutAll(m, net[0].others), net[1..])
  }

  lemma {:induction false} StoreAtAnswerEvolves<V(!new)>(m: Store<V>, net: seq<Attempt<V>>)
    requires Positive(m)
    ensures Positive(StoreAtAnswer(m, net)) && Evolves(m, StoreAtAnswer(m, net))
    decreases |net|
  {
    if net != [] {
      PutAllEvolves(m, net[0].others);
      StoreAtAnswerEvolves(PutAll(m, net[0].others), net[1..]);
      EvolvesTransitive(m, PutAll(m, net[0].others), StoreAtAnswer(m, net));
    }
  }

  /** One round of the put loop: the attempts of its Put and of its Get. */
  datatype Round = Round(put: seq<Attempt<string>>, get: seq<Attempt<string>>)

  ghost predicate AllCalls(rounds: seq<Round>) {
    forall i :: 0 <= i < |rounds| ==> IsCall(rounds[i].put) && IsCall(rounds[i].get)
  }

  ghost predicate NoResend(rounds: seq<Round>) {
    forall round :: round in rounds ==> |round.put| <= 1
  }

  /** One put loop of a client: which of its keys, and the rounds it takes. */
  datatype Work = Work(k: nat, rounds: seq<Round>)

  /** The value the put loop stores. */
  datatype EntryV = EntryV(id: int, v: nat)

  datatype OnePutResult =
    | Done(ver: nat, ok: bool)
    | StillTrying(next: nat)
    | WrongError
    | GetFailed
    | WrongValue

  class Clerk {
    const server: KVServer

    constructor (server: KVServer)
      ensures this.server == server
    {
      this.server := server;
    }

    method RunOthers(puts: seq<PutArgs<string>>)
      modifies server
      ensures server.kvmap == PutAll(old(server.kvmap), puts)
    {
      for i := 0 to |puts|
        invariant PutAll(server.kvmap, puts[i..]) == PutAll(old(server.kvmap), puts)
      {
        var _ := server.Put(puts[i]);
        assert puts[i..][1..] == puts[i + 1..];
      }
    }

    /** One Put attempt; reply is meaningful only when ok. */
    method CallPut(a: PutArgs<string>, attempt: Attempt<string>) returns (ok: bool, reply: Err)
      modifies server
      ensures ok == (attempt.fate == Answered)
      ensures var m := PutAll(old(server.kvmap), attempt.others);
              && reply == (if attempt.fate == Dropped then ErrMaybe else PutErr(m, a))
              && server.kvmap == (if attempt.fate == Dropped then m else PutStore(m, a))
    {
      RunOthers(attempt.others);
      reply := ErrMaybe;
      if attempt.fate != Dropped {
        reply := server.Put(a);
      }
      ok := attempt.fate == Answered;
    }

    method Get(key: string, net: seq<Attempt<string>>) returns (value: string, version: nat, err: Err)
      requires IsCall(net)
      modifies server
      ensures server.kvmap == StoreAtAnswer(old(server.kvmap), net)
      ensures err == OK || err == ErrNoKey
      ensures err == OK <==> key in server.kvmap
      ensures key in server.kvmap ==> server.kvmap[key] == Versioned(value, version)
      ensures key !in server.kvmap ==> value == "" && version == 0
    {
      var ok, i := false, 0;
      value, version, err := "", 0, ErrNoKey;
      while !ok
        invariant 0 <= i <= |net| && (ok <==> i == |net|)
        invariant StoreAtAnswer(server.kvmap, net[i..]) == StoreAtAnswer(old(server.kvmap), net)
        invariant ok ==> (err == OK || err == ErrNoKey) && (err == OK <==> key in server.kvmap)
        invariant ok && key in server.kvmap ==> server.kvmap[key] == Versioned(value, version)
        invariant ok && key !in server.kvmap ==> value == "" && version == 0
        decreases |net| - i
      {
        RunOthers(net[i].others);
        assert net[i..][1..] == net[i + 1..];
        ok := net[i].fate == Answered;
        if ok {
          value, version, err := server.Get(key);
        }
        i := i + 1;
      }
      assert net[i..] == [];
    }

    method Put(a: PutArgs<string>, net: seq<Attempt<string>>) returns (err: Err)
      requires IsCall(net)
      modifies server
      ensures var r := PutRun(old(server.kvmap), a, net, false);
              server.kvmap == r.store && err == r.err
      ensures var met := StoreMet(old(server.kvmap), a, net);
              && (err == OK <==> if a.key in met then met[a.key].version == a.version else a.version == 0)
              && (err == ErrNoKey <==> a.key !in met && a.version != 0)
              && (err == ErrMaybe <==> |net| > 1 && a.key in met && met[a.key].version != a.version)
              && server.kvmap == if err == OK then met[a.key := Versioned(a.value, a.version + 1)] else met
    {
      AnswerExactly(server.kvmap, a, net, false);
      var ok, reply := CallPut(a, net[0]);
      if ok {
        return reply;
      }
      var i := 1;
      ghost var run := PutRun(old(server.kvmap), a, net, false);
      while !ok
        invariant 1 <= i <= |net| && (ok <==> i == |net|)
        invariant !ok ==> PutRun(server.kvmap, a, net[i..], true).store == run.store
        invariant !ok ==> PutRun(server.kvmap, a, net[i..], true).err == run.err
        invariant ok ==> server.kvmap == run.store && Conclude(true, reply) == run.err
        decreases |net| - i
      {
        assert net[i..][1..] == net[i + 1..];
        ok, reply := CallPut(a, net[i]);
        i := i + 1;
      }
      if reply == ErrVersion {
        return ErrMaybe;
      } else {
        return reply;
      }
    }

    /** The put loop of the concurrent-put test, writing the encoding of its own identity and version. Whatever the
        other clerks do, it never meets an unexpected error, a missing key, or a foreign value at
        the version its own successful Put produced; and the version it returns is current. Of all its Puts exactly one
        took effect if it reports success, at most one if it is unsure, which takes a resend, and none before. */
    method OnePut(encode: EntryV -> string, decode: string -> EntryV, me: int, key: string, ver0: nat,
                  rounds: seq<Round>) returns (r: OnePutResult, ghost applied: nat)
      requires forall e :: decode(encode(e)) == e
      requires AllCalls(rounds)
      requires Positive(server.kvmap)
      requires ver0 == 0 || key in server.kvmap
      modifies server
      ensures Positive(server.kvmap) && Evolves(old(server.kvmap), server.kvmap)
      ensures r.Done? || r.StillTrying?
      ensures r.Done? ==> key in server.kvmap && r.ver == server.kvmap[key].version
      ensures r.StillTrying? ==> applied == 0
      ensures r.Done? ==> if r.ok then applied == 1 else applied <= 1 && !NoResend(rounds)
    {
      var ver := ver0;
      applied := 0;
      for i := 0 to |rounds|
        invariant Positive(server.kvmap) && Evolves(old(server.kvmap), server.kvmap)
        invariant ver == 0 || key in server.kvmap
        invariant applied == 0
      {
        var a := PutArgs(key, encode(EntryV(me, ver)), ver);
        ghost var before := server.kvmap;
        PutIsTruthful(before, a, rounds[i].put, false);
        applied := applied + PutRun(before, a, rounds[i].put, false).applied;
        var err := Put(a, rounds[i].put);
        if !(err == OK || err == ErrVersion || err == ErrMaybe) {
          return WrongError, applied;
        }
        ghost var mid := server.kvmap;
        StoreAtAnswerEvolves(mid, rounds[i].get);
        EvolvesTransitive(old(server.kvmap), before, mid);
        assert key in mid;
        var value, now, e := Get(key, rounds[i].get);
        EvolvesTransitive(old(server.kvmap), mid, server.kvmap);
        if e != OK {
          return GetFailed, applied;
        }
        if err == OK && now == ver + 1 {
          var entry := decode(value);
          if entry.id != me && entry.v != ver {
            return WrongValue, applied;
          }
        }
        ver := now;
        if err == OK || err == ErrMaybe {
          assert rounds[i] in rounds;
          return Done(ver, err == OK), applied;
        }
      }
      return StillTrying(ver), applied;
    }

    /** A client of the concurrent-put test: one OnePut after the other, on the first key or any key, until it is
        told to stop. Its counts bracket the number of its Puts that took effect; without resends it is never unsure. */
    method OneClientPut(encode: EntryV -> string, decode: string -> EntryV, me: int, ka: seq<string>, work: seq<Work>)
        returns (nok: nat, nmaybe: nat, ghost applied: nat)
      requires forall e :: decode(encode(e)) == e
      requires forall i :: 0 <= i < |work| ==> work[i].k < |ka| && AllCalls(work[i].rounds)
      requires Positive(server.kvmap)
      modifies server
      ensures nok <= applied <= nok + nmaybe && nok + nmaybe <= |work|
      ensures (forall i :: 0 <= i < |work| ==> NoResend(work[i].rounds)) ==> nmaybe == 0
    {
      nok, nmaybe, applied := 0, 0, 0;
      var verm: map<string, nat> := map k | k in ka :: 0;
      for i := 0 to |work|
        invariant Positive(server.kvmap) && nok <= applied <= nok + nmaybe && nok + nmaybe <= i
        invariant verm.Keys == (set k | k in ka) && forall k :: k in verm ==> verm[k] == 0 || k in server.kvmap
        invariant (forall j :: 0 <= j < |work| ==> NoResend(work[j].rounds)) ==> nmaybe == 0
      {
        var k := ka[work[i].k];
        var r;
        ghost var n;
        r, n := OnePut(encode, decode, me, k, verm[k], work[i].rounds);
        if r.StillTrying? {
          return;
        }
        applied := applied + n;
        verm := verm[k := r.ver];
        if r.ok {
          nok := nok + 1;
        } else {
          nmaybe := nmaybe + 1;
        }
      }
    }
  }
}
