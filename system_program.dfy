/**
 * The lamport transfer that `system_instruction::transfer` asks the system
 * program to perform, as an update of an abstract map of account balances.
 * An account absent from the map holds zero lamports.
 */
module SystemProgram {
  import opened Wrappers
  import opened U64Arith

  /** A request to move `lamports` from account `from` to account `to`. */
  datatype Transfer<K> = Transfer(from: K, to: K, lamports: U64)

  /** The two ways the transfer itself can fail. */
  datatype SystemError =
    | ResultWithNegativeLamports  // the source account holds fewer lamports than requested
    | ArithmeticOverflow          // crediting the destination would exceed 2^64 - 1

  /** Lamports held by account `k`. */
  function Balance<K>(m: map<K, U64>, k: K): (b: U64) {
    if k in m then m[k] else 0
  }

  /**
   * The balances after `t`: debit the source (which must cover the amount),
   * then credit the destination with a checked add. A transfer from an
   * account to itself leaves its balance as it was.
   */
  function ApplyTransfer<K>(m: map<K, U64>, t: Transfer<K>): (r: Result<map<K, U64>, SystemError>)
    ensures r == Err(ResultWithNegativeLamports) <==> Balance(m, t.from) < t.lamports
    ensures r == Err(ArithmeticOverflow) <==>
              t.lamports <= Balance(m, t.from) && t.from != t.to && Balance(m, t.to) + t.lamports > U64_MAX
    ensures r.Ok? ==> r.value.Keys == m.Keys + {t.from, t.to}
    ensures r.Ok? ==> forall k :: k in m && k != t.from && k != t.to ==> r.value[k] == m[k]
    ensures r.Ok? && t.from != t.to ==>
              Balance(r.value, t.from) == Balance(m, t.from) - t.lamports &&
              Balance(r.value, t.to) == Balance(m, t.to) + t.lamports
    ensures r.Ok? && t.from == t.to ==> Balance(r.value, t.from) == Balance(m, t.from)
  {
    var source := Balance(m, t.from);
    if source < t.lamports then
      Err(ResultWithNegativeLamports)
    else
      var debited := m[t.from := source - t.lamports];
      var credited := CheckedAdd(Balance(debited, t.to), t.lamports);
      if credited.None? then Err(ArithmeticOverflow) else Ok(debited[t.to := credited.value])
  }

  /** The lamports held by the accounts in `keys`. */
  ghost function TotalOver<K>(m: map<K, U64>, keys: set<K>): (total: int)
    requires keys <= m.Keys
    decreases keys
  {
    if keys == {} then 0 else var k :| k in keys; m[k] + TotalOver(m, keys - {k})
  }

  /** The lamports held by all accounts. */
  ghost function Total<K>(m: map<K, U64>): (total: int) {
    TotalOver(m, m.Keys)
  }

  /** Any account of `keys` may be taken out first when summing. */
  lemma {:induction false} TotalOverRemove<K>(m: map<K, U64>, keys: set<K>, k: K)
    requires keys <= m.Keys && k in keys
    ensures TotalOver(m, keys) == m[k] + TotalOver(m, keys - {k})
    decreases keys
  {
    var j :| j in keys && TotalOver(m, keys) == m[j] + TotalOver(m, keys - {j});
    if j != k {
      TotalOverRemove(m, keys - {j}, k);
      TotalOverRemove(m, keys - {k}, j);
      assert keys - {j} - {k} == keys - {k} - {j};
    }
  }

  /** Two maps that agree on `keys` hold the same lamports there. */
  lemma {:induction false} TotalOverAgree<K>(m1: map<K, U64>, m2: map<K, U64>, keys: set<K>)
    requires keys <= m1.Keys && keys <= m2.Keys
    requires forall k :: k in keys ==> m1[k] == m2[k]
    ensures TotalOver(m1, keys) == TotalOver(m2, keys)
    decreases keys
  {
    if keys != {} {
      var k :| k in keys;
      TotalOverRemove(m1, keys, k);
      TotalOverRemove(m2, keys, k);
      TotalOverAgree(m1, m2, keys - {k});
    }
  }

  /** Setting one balance changes the total by the difference. */
  lemma TotalUpdate<K>(m: map<K, U64>, k: K, v: U64)
    ensures Total(m[k := v]) == Total(m) - Balance(m, k) + v
  {
    var m' := m[k := v];
    TotalOverRemove(m', m'.Keys, k);
    assert m'.Keys - {k} == m.Keys - {k};
    TotalOverAgree(m', m, m.Keys - {k});
    if k in m {
      TotalOverRemove(m, m.Keys, k);
    } else {
      assert m.Keys - {k} == m.Keys;
    }
  }

  /** A transfer that succeeds neither creates nor destroys lamports. */
  lemma TransferConservesLamports<K>(m: map<K, U64>, t: Transfer<K>)
    requires ApplyTransfer(m, t).Ok?
    ensures Total(ApplyTransfer(m, t).value) == Total(m)
  {
    var source := Balance(m, t.from);
    var debited := m[t.from := source - t.lamports];
    TotalUpdate(m, t.from, source - t.lamports);
    var credited := Balance(debited, t.to) + t.lamports;
    TotalUpdate(debited, t.to, credited);
  }
}
