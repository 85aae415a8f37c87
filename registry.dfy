/** The abstract state of the callback registry, a map from transaction key to
    that transaction's pending callbacks in registration order, and the two
    things the manager does to it: store one callback (`StoreCommitCallback`)
    and claim a key's list (the `LoadAndDelete` of `executeCallbacks`). The
    manager's methods are proved to act on their state as these functions
    say. */
module Registry {
  import opened GoErrors
  import opened TxKeys
  import opened Engine

  /** Pending callbacks by transaction key. */
  type Callbacks = map<string, seq<Callback>>

  /** The list filed under `key`, or the empty list if there is none. */
  function Pending(reg: Callbacks, key: string): seq<Callback>
  {
    if key in reg then reg[key] else []
  }

  /** The registry after storing `callback` under `key`: unchanged for a nil
      callback; otherwise the callback is appended to the key's list, which is
      created empty first if the key has none, and every other key keeps its
      list. */
  function Stored(reg: Callbacks, key: string, callback: Option<Callback>): (r: Callbacks)
    ensures callback.None? ==> r == reg
    ensures callback.Some? ==> r.Keys == reg.Keys + {key}
    ensures callback.Some? ==> Pending(r, key) == Pending(reg, key) + [callback.value]
    ensures forall k :: k != key && k in reg ==> k in r && r[k] == reg[k]
  {
    match callback
    case None => reg
    case Some(fn) => reg[key := Pending(reg, key) + [fn]]
  }

  /** The claim: the list filed under `key` (empty if none), and the registry
      with `key` removed and every other key untouched. */
  function Claimed(reg: Callbacks, key: string): (r: (Callbacks, seq<Callback>))
    ensures r.0.Keys == reg.Keys - {key}
    ensures forall k :: k in r.0 ==> r.0[k] == reg[k]
    ensures r.1 == Pending(reg, key)
  {
    (reg - {key}, Pending(reg, key))
  }

  /** Claims consume: once a key has been claimed, claiming it again yields
      nothing and leaves the registry as the first claim left it. */
  lemma ClaimIsConsumeOnce(reg: Callbacks, key: string)
    ensures var (rest, _) := Claimed(reg, key);
            Claimed(rest, key) == (rest, [])
  {
    var rest := Claimed(reg, key).0;
    assert key !in rest;
    assert rest - {key} == rest;
  }

  /** A callback stored under one transaction never shows up in another
      transaction's list. */
  lemma HandlesAreIsolated(reg: Callbacks, a: Tx, b: Tx, callback: Option<Callback>)
    requires a != b
    ensures Pending(Stored(reg, TxKey(a), callback), TxKey(b)) == Pending(reg, TxKey(b))
  {
    if TxKey(a) == TxKey(b) {
      TxKeyInjective(a, b);
    }
  }

  /** The registry after storing each of `fns` under `key`, one after another. */
  function StoredAll(reg: Callbacks, key: string, fns: seq<Option<Callback>>): Callbacks
    decreases |fns|
  {
    if fns == [] then reg else StoredAll(Stored(reg, key, fns[0]), key, fns[1..])
  }

  /** No registration is lost: after any run of registrations on one key, the
      key's list is what it was followed by every non-nil callback in the
      order stored, and every other key keeps its list. */
  lemma {:induction false} StoredAllKeepsEveryCallback(reg: Callbacks, key: string, fns: seq<Option<Callback>>)
    ensures Pending(StoredAll(reg, key, fns), key) == Pending(reg, key) + Somes(fns)
    ensures forall k :: k != key ==> Pending(StoredAll(reg, key, fns), k) == Pending(reg, k)
    decreases |fns|
  {
    if fns != [] {
      var next := Stored(reg, key, fns[0]);
      StoredAllKeepsEveryCallback(next, key, fns[1..]);
    }
  }

  /** Registering on a fresh key and then claiming it hands back exactly the
      non-nil callbacks registered, in registration order, and leaves the key
      absent. */
  lemma StoreThenClaim(reg: Callbacks, key: string, fns: seq<Option<Callback>>)
    requires key !in reg
    ensures var (rest, claimed) := Claimed(StoredAll(reg, key, fns), key);
            claimed == Somes(fns) && key !in rest
  {
    StoredAllKeepsEveryCallback(reg, key, fns);
  }
}
