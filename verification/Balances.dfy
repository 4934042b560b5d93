/** Balances by key, their sum, and transfers that cannot create or destroy units. */
module Balances {
  import opened Wrappers

  type Book<K> = map<K, nat>

  function Bal<K>(m: Book<K>, k: K): nat {
    if k in m then m[k] else 0
  }

  /** The sum of all balances. */
  ghost function Sum<K>(m: Book<K>): nat
    decreases |m|
  {
    if m == map[] then 0
    else
      var k :| k in m;
      m[k] + Sum(m - {k})
  }

  /** Any key can be taken out first. */
  lemma {:induction false} SumWithout<K>(m: Book<K>, k: K)
    requires k in m
    ensures Sum(m) == m[k] + Sum(m - {k})
    decreases |m|
  {
    var j :| j in m && Sum(m) == m[j] + Sum(m - {j});
    if j != k {
      SumWithout(m - {j}, k);
      SumWithout(m - {k}, j);
      assert m - {j} - {k} == m - {k} - {j};
    }
  }

  lemma SumUpdate<K>(m: Book<K>, k: K, v: nat)
    ensures Sum(m[k := v]) + Bal(m, k) == Sum(m) + v
  {
    SumWithout(m[k := v], k);
    assert m[k := v] - {k} == m - {k};
    if k in m {
      SumWithout(m, k);
    } else {
      assert m - {k} == m;
    }
  }

  lemma SumAtLeast<K>(m: Book<K>, k: K)
    ensures Bal(m, k) <= Sum(m)
  {
    if k in m {
      SumWithout(m, k);
    }
  }

  lemma SumAtLeastTwo<K>(m: Book<K>, j: K, k: K)
    requires j != k
    ensures Bal(m, j) + Bal(m, k) <= Sum(m)
  {
    if j in m && k in m {
      SumWithout(m, j);
      SumWithout(m - {j}, k);
    } else {
      SumAtLeast(m, j);
      SumAtLeast(m, k);
    }
  }

  /** Debit, then credit the balances as they are after the debit: a transfer to oneself changes nothing. */
  function Move<K>(m: Book<K>, source: K, target: K, amount: nat): (r: Option<Book<K>>)
    ensures r.Some? <==> amount <= Bal(m, source)
  {
    if amount == 0 then Some(m)
    else if Bal(m, source) < amount then None
    else
      var debited := m[source := Bal(m, source) - amount];
      Some(debited[target := Bal(debited, target) + amount])
  }

  /** A transfer shifts `amount` between two balances, and keeps every other one and the sum. */
  lemma MoveIsFair<K>(m: Book<K>, source: K, target: K, amount: nat)
    requires amount <= Bal(m, source)
    ensures var r := Move(m, source, target, amount).value;
            && Sum(r) == Sum(m)
            && (source != target ==>
                  Bal(r, source) == Bal(m, source) - amount && Bal(r, target) == Bal(m, target) + amount)
            && (source == target ==> Bal(r, source) == Bal(m, source))
            && (forall k | k != source && k != target :: Bal(r, k) == Bal(m, k))
  {
    if amount > 0 {
      var debited := m[source := Bal(m, source) - amount];
      SumUpdate(m, source, Bal(m, source) - amount);
      SumUpdate(debited, target, Bal(debited, target) + amount);
    }
  }

  function Burn<K>(m: Book<K>, source: K, amount: nat): (r: Option<Book<K>>)
    ensures r.Some? <==> amount <= Bal(m, source)
  {
    if amount == 0 then Some(m)
    else if Bal(m, source) < amount then None
    else Some(m[source := Bal(m, source) - amount])
  }

  lemma BurnRemoves<K>(m: Book<K>, source: K, amount: nat)
    requires amount <= Bal(m, source)
    ensures var r := Burn(m, source, amount).value;
            Sum(r) + amount == Sum(m) && Bal(r, source) == Bal(m, source) - amount
  {
    if amount > 0 {
      SumUpdate(m, source, Bal(m, source) - amount);
    }
  }

  /** Closing an empty account. */
  lemma CloseKeeps<K>(m: Book<K>, k: K)
    requires Bal(m, k) == 0
    ensures Sum(m - {k}) == Sum(m)
    ensures forall j :: Bal(m - {k}, j) == Bal(m, j)
  {
    if k in m {
      SumWithout(m, k);
    } else {
      assert m - {k} == m;
    }
  }

  /** A supply of one is in exactly one place. */
  lemma UnitHasOneHolder<K>(m: Book<K>)
    requires Sum(m) == 1
    ensures exists k :: Bal(m, k) == 1 && forall j | j != k :: Bal(m, j) == 0
  {
    var k := PositiveHolder(m);
    SumAtLeast(m, k);
    forall j | j != k ensures Bal(m, j) == 0 {
      SumAtLeastTwo(m, j, k);
    }
  }

  lemma {:induction false} PositiveHolder<K>(m: Book<K>) returns (k: K)
    requires Sum(m) > 0
    ensures Bal(m, k) > 0
    decreases |m|
  {
    k :| k in m && Sum(m) == m[k] + Sum(m - {k});
    if m[k] == 0 {
      k := PositiveHolder(m - {k});
    }
  }
}
