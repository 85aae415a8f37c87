/** Transaction identity: `txKey` turns a transaction handle into the string
    under which the manager files the handle's callbacks. */
module TxKeys {
  import Fmt

  /** A 64-bit machine address. */
  type Address = a: nat | a < 0x1_0000_0000_0000_0000

  /** A `pgx.Tx` interface value: nil, or a handle whose identity is the
      address of the object behind it (a typed nil pointer has address 0). */
  datatype Tx = NilTx | Handle(address: Address)

  /** The key used for a nil handle. */
  const NilKey: string := "nil-tx"

  /** `txKey`: the sentinel for a nil handle, otherwise the address as `%p`
      prints it, `0x` followed by lower-case hexadecimal digits. */
  function TxKey(tx: Tx): (key: string)
    ensures tx.NilTx? <==> key == NilKey
    ensures tx.Handle? ==> |key| >= 3 && key[..2] == "0x"
    ensures tx.Handle? ==> forall i :: 2 <= i < |key| ==> Fmt.IsDigit(key[i], 16)
  {
    match tx
    case NilTx => NilKey
    case Handle(a) =>
      var key := "0x" + Fmt.Digits(a, 16);
      assert key[0] != NilKey[0];
      key
  }

  /** Distinct handles never share a key, so one transaction's callbacks are
      never filed under another's. */
  lemma TxKeyInjective(t: Tx, u: Tx)
    requires TxKey(t) == TxKey(u)
    ensures t == u
  {
    if t.Handle? && u.Handle? {
      var k := TxKey(t);
      assert k[2..] == Fmt.Digits(t.address, 16);
      assert k[2..] == Fmt.Digits(u.address, 16);
      Fmt.DigitsInjective(t.address, u.address, 16);
    }
  }
}
