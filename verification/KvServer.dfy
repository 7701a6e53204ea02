/** The versioned key/value server: rpc error codes, the two request handlers as
    functions on the map, and the server object that runs them under its mutex. */
module KvServer {

  datatype Err = OK | ErrNoKey | ErrVersion | ErrMaybe

  datatype Versioned<V> = Versioned(value: V, version: nat)

  /** The server's state; an absent key stands for version 0. */
  type Store<V> = map<string, Versioned<V>>

  datatype PutArgs<V> = PutArgs(key: string, value: V, version: nat)

  function VersionOf<V>(m: Store<V>, key: string): nat {
    if key in m then m[key].version else 0
  }

  /** KVServer.Put: which error it answers, and the map it leaves behind. */
  function PutErr<V>(m: Store<V>, a: PutArgs<V>): Err {
    if a.key !in m then
      if a.version != 0 then ErrNoKey else OK
    else if a.version != m[a.key].version then ErrVersion
    else OK
  }

  function PutStore<V>(m: Store<V>, a: PutArgs<V>): Store<V> {
    if PutErr(m, a) == OK then m[a.key := Versioned(a.value, a.version + 1)] else m
  }

  /** Every stored version is positive: version 0 means absent. */
  ghost predicate Positive<V(!new)>(m: Store<V>) {
    forall k :: k in m ==> m[k].version > 0
  }

  /** m' can come after m: keys stay, versions do not decrease, and a version that
      stayed the same still names the same value. */
  ghost predicate Evolves<V(!new)>(m: Store<V>, m': Store<V>) {
    forall k :: k in m ==>
      && k in m'
      && m[k].version <= m'[k].version
      && (m[k].version == m'[k].version ==> m[k] == m'[k])
  }

  lemma EvolvesTransitive<V(!new)>(a: Store<V>, b: Store<V>, c: Store<V>)
    requires Evolves(a, b) && Evolves(b, c)
    ensures Evolves(a, c)
  {
    forall k | k in a
      ensures k in c && a[k].version <= c[k].version && (a[k].version == c[k].version ==> a[k] == c[k])
    {
      assert k in b && k in c;
    }
  }

  /** What one Put does to the version of every key: it moves the version of its own key
      up by one exactly when it answers OK, which happens exactly when the
      request names the current version; all other keys keep their contents. */
  lemma PutMovesOneVersion<V(!new)>(m: Store<V>, a: PutArgs<V>, k: string)
    requires Positive(m)
    ensures Positive(PutStore(m, a)) && Evolves(m, PutStore(m, a))
    ensures PutErr(m, a) == OK <==> VersionOf(m, a.key) == a.version
    ensures VersionOf(PutStore(m, a), k) ==
            VersionOf(m, k) + if k == a.key && PutErr(m, a) == OK then 1 else 0
    ensures k != a.key ==> (k in PutStore(m, a) <==> k in m)
    ensures k != a.key && k in m ==> PutStore(m, a)[k] == m[k]
  {
  }

  class KVServer {
    var kvmap: Store<string>

    constructor ()
      ensures kvmap == map[]
    {
      kvmap := map[];
    }

    method Get(key: string) returns (value: string, version: nat, err: Err)
      ensures err == OK || err == ErrNoKey
      ensures err == OK <==> key in kvmap
      ensures key in kvmap ==> kvmap[key] == Versioned(value, version)
      ensures key !in kvmap ==> value == "" && version == 0
    {
      if key !in kvmap {
        return "", 0, ErrNoKey;
      }
      var vv := kvmap[key];
      return vv.value, vv.version, OK;
    }

    method Put(a: PutArgs<string>) returns (err: Err)
      modifies this
      ensures err == PutErr(old(kvmap), a) && kvmap == PutStore(old(kvmap), a)
    {
      if a.key !in kvmap {
        if a.version != 0 {
          return ErrNoKey;
        }
        kvmap := kvmap[a.key := Versioned(a.value, a.version + 1)];
        err := OK;
      } else {
        var vv := kvmap[a.key];
        if a.version != vv.version {
          return ErrVersion;
        }
        kvmap := kvmap[a.key := Versioned(a.value, a.version + 1)];
        err := OK;
      }
    }
  }
}
