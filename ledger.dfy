/**
 What the transaction log means: the sums, per payer and overall, that the
 database aggregates and the point service checks against. Every function here
 recurses on the last transaction, the way the loops in the database and the
 service walk the log.
 */
module Ledger {
  import opened Model
  import opened Sorting

  /** The sum of the points of all transactions in `s`. */
  function Total(s: seq<Transaction>): int
  {
    if s == [] then 0 else Total(s[..|s| - 1]) + s[|s| - 1].points
  }

  /** The sum of the points of the transactions in `s` whose payer is `p`. */
  function PayerTotal(s: seq<Transaction>, p: string): int
  {
    if s == [] then 0
    else PayerTotal(s[..|s| - 1], p) + (if s[|s| - 1].payer == p then s[|s| - 1].points else 0)
  }

  /** The payers that occur in `s`. */
  function Payers(s: seq<Transaction>): set<string>
  {
    set t | t in s :: t.payer
  }

  lemma PayersSnoc(s: seq<Transaction>, t: Transaction)
    ensures Payers(s + [t]) == Payers(s) + {t.payer}
  {
    assert forall u :: u in s + [t] <==> u in s || u == t;
  }

  /** The payers of `s`, each once, in the order they first occur. */
  function TouchOrder(s: seq<Transaction>): (ps: seq<string>)
    ensures Distinct(ps)
    ensures forall p :: p in ps <==> p in Payers(s)
  {
    if s == [] then []
    else
      var ps := TouchOrder(s[..|s| - 1]);
      var p := s[|s| - 1].payer;
      assert s == s[..|s| - 1] + [s[|s| - 1]];
      PayersSnoc(s[..|s| - 1], s[|s| - 1]);
      if p in ps then ps else ps + [p]
  }

  /** A transaction of a new payer adds that payer at the end of the touch order. */
  lemma TouchOrderSnoc(s: seq<Transaction>, t: Transaction)
    ensures TouchOrder(s + [t])
         == if t.payer in TouchOrder(s) then TouchOrder(s) else TouchOrder(s) + [t.payer]
  {
    assert (s + [t])[..|s + [t]| - 1] == s;
  }

  /** Extending a prefix of the log by the next transaction: the total and the touch order. */
  lemma PrefixStep(s: seq<Transaction>, k: nat)
    requires k < |s|
    ensures Total(s[..k + 1]) == Total(s[..k]) + s[k].points
    ensures TouchOrder(s[..k + 1])
         == if s[k].payer in TouchOrder(s[..k]) then TouchOrder(s[..k]) else TouchOrder(s[..k]) + [s[k].payer]
  {
    assert s[..k + 1][..k] == s[..k];
  }

  /** Extending a prefix of the log by the next transaction: the sum of payer `p`. */
  lemma PayerStep(s: seq<Transaction>, k: nat, p: string)
    requires k < |s|
    ensures PayerTotal(s[..k + 1], p) == PayerTotal(s[..k], p) + (if s[k].payer == p then s[k].points else 0)
  {
    assert s[..k + 1][..k] == s[..k];
  }

  lemma {:induction false} TotalAppend(a: seq<Transaction>, b: seq<Transaction>)
    ensures Total(a + b) == Total(a) + Total(b)
  {
    if b != [] {
      assert (a + b)[..|a + b| - 1] == a + b[..|b| - 1];
      assert (a + b)[|a + b| - 1] == b[|b| - 1];
      TotalAppend(a, b[..|b| - 1]);
    } else {
      assert a + b == a;
    }
  }

  lemma {:induction false} PayerTotalAppend(a: seq<Transaction>, b: seq<Transaction>, p: string)
    ensures PayerTotal(a + b, p) == PayerTotal(a, p) + PayerTotal(b, p)
  {
    if b != [] {
      assert (a + b)[..|a + b| - 1] == a + b[..|b| - 1];
      assert (a + b)[|a + b| - 1] == b[|b| - 1];
      PayerTotalAppend(a, b[..|b| - 1], p);
    } else {
      assert a + b == a;
    }
  }

  /** A payer that does not occur has a zero sum. */
  lemma {:induction false} PayerTotalAbsent(s: seq<Transaction>, p: string)
    requires p !in Payers(s)
    ensures PayerTotal(s, p) == 0
  {
    if s != [] {
      assert s[|s| - 1] in s;
      assert s == s[..|s| - 1] + [s[|s| - 1]];
      PayersSnoc(s[..|s| - 1], s[|s| - 1]);
      PayerTotalAbsent(s[..|s| - 1], p);
    }
  }

  /** Taking out the transaction at `j` takes its points out of its payer's sum. */
  lemma PayerTotalRemove(b: seq<Transaction>, j: nat, p: string)
    requires j < |b|
    ensures PayerTotal(b, p)
         == PayerTotal(b[..j] + b[j + 1..], p) + (if b[j].payer == p then b[j].points else 0)
  {
    assert b == b[..j] + [b[j]] + b[j + 1..];
    PayerTotalAppend(b[..j] + [b[j]], b[j + 1..], p);
    PayerTotalAppend(b[..j], [b[j]], p);
    PayerTotalAppend(b[..j], b[j + 1..], p);
    assert [b[j]][..0] == [];
  }

  lemma MultisetRemove(a: seq<Transaction>, b: seq<Transaction>, j: nat)
    requires a != [] && j < |b| && b[j] == a[|a| - 1]
    requires multiset(a) == multiset(b)
    ensures multiset(a[..|a| - 1]) == multiset(b[..j] + b[j + 1..])
  {
    var x := b[j];
    assert a == a[..|a| - 1] + [x];
    assert b == b[..j] + [x] + b[j + 1..];
    calc {
      multiset(a[..|a| - 1]);
      multiset(a) - multiset{x};
      multiset(b) - multiset{x};
      multiset(b[..j]) + multiset(b[j + 1..]);
      multiset(b[..j] + b[j + 1..]);
    }
  }

  /** A payer's sum does not depend on the order of the log. */
  lemma {:induction false} PayerTotalPermutation(a: seq<Transaction>, b: seq<Transaction>, p: string)
    requires multiset(a) == multiset(b)
    ensures PayerTotal(a, p) == PayerTotal(b, p)
  {
    if a == [] {
      assert |b| == |multiset(b)| == 0;
    } else {
      var x := a[|a| - 1];
      assert x in multiset(b) by {
        assert x in multiset(a);
      }
      var j :| 0 <= j < |b| && b[j] == x;
      MultisetRemove(a, b, j);
      PayerTotalPermutation(a[..|a| - 1], b[..j] + b[j + 1..], p);
      PayerTotalRemove(b, j, p);
    }
  }

  /** Removing the j-th transaction from a log removes its points from the total. */
  lemma TotalRemove(b: seq<Transaction>, j: nat)
    requires j < |b|
    ensures Total(b) == Total(b[..j] + b[j + 1..]) + b[j].points
  {
    assert b == b[..j] + b[j..];
    assert b[j..] == [b[j]] + b[j + 1..];
    TotalAppend(b[..j], b[j..]);
    TotalAppend([b[j]], b[j + 1..]);
    TotalAppend(b[..j], b[j + 1..]);
    assert [b[j]][..0] == [];
  }

  /** The total of a log does not depend on its order. */
  lemma {:induction false} TotalPermutation(a: seq<Transaction>, b: seq<Transaction>)
    requires multiset(a) == multiset(b)
    ensures Total(a) == Total(b)
  {
    if a == [] {
      assert |b| == |multiset(b)| == 0;
    } else {
      var x := a[|a| - 1];
      assert x in multiset(b) by {
        assert x in multiset(a);
      }
      var j :| 0 <= j < |b| && b[j] == x;
      MultisetRemove(a, b, j);
      TotalPermutation(a[..|a| - 1], b[..j] + b[j + 1..]);
      TotalRemove(b, j);
    }
  }

  /**
   A log that holds a permutation of `before` followed by a permutation of
   `added` totals the two totals, whatever order either part is stored in.
   */
  lemma AppendedTotal(before: seq<Transaction>, after: seq<Transaction>, added: seq<Transaction>)
    requires |before| <= |after|
    requires multiset(after[..|before|]) == multiset(before)
    requires multiset(after[|before|..]) == multiset(added)
    ensures Total(after) == Total(before) + Total(added)
  {
    var n := |before|;
    assert after == after[..n] + after[n..];
    TotalAppend(after[..n], after[n..]);
    TotalPermutation(after[..n], before);
    TotalPermutation(after[n..], added);
  }

  /** The payers of a log do not depend on its order. */
  lemma PayersPermutation(a: seq<Transaction>, b: seq<Transaction>)
    requires multiset(a) == multiset(b)
    ensures Payers(a) == Payers(b)
  {
    forall t ensures t in a <==> t in b {
      assert t in a <==> t in multiset(a);
      assert t in b <==> t in multiset(b);
    }
  }

  /** The sum, over the payers `ps`, of each payer's total in `s`. */
  function SumOverPayers(ps: seq<string>, s: seq<Transaction>): int
  {
    if ps == [] then 0
    else SumOverPayers(ps[..|ps| - 1], s) + PayerTotal(s, ps[|ps| - 1])
  }

  lemma {:induction false} SumOverPayersEmpty(ps: seq<string>)
    ensures SumOverPayers(ps, []) == 0
  {
    if ps != [] {
      SumOverPayersEmpty(ps[..|ps| - 1]);
    }
  }

  /** Adding a transaction adds its points once, to the sum of its own payer. */
  lemma {:induction false} SumOverPayersSnoc(ps: seq<string>, s: seq<Transaction>, t: Transaction)
    requires Distinct(ps)
    ensures SumOverPayers(ps, s + [t]) == SumOverPayers(ps, s) + (if t.payer in ps then t.points else 0)
  {
    if ps != [] {
      var ps' := ps[..|ps| - 1];
      var q := ps[|ps| - 1];
      assert ps == ps' + [q];
      assert Distinct(ps');
      SumOverPayersSnoc(ps', s, t);
      assert (s + [t])[..|s + [t]| - 1] == s;
    }
  }

  /**
   The overall total is the sum of the payers' totals, taken over any
   duplicate-free list holding every payer of the log.
   */
  lemma {:induction false} TotalIsSumOfPayerTotals(ps: seq<string>, s: seq<Transaction>)
    requires Distinct(ps)
    requires forall p :: p in Payers(s) ==> p in ps
    ensures SumOverPayers(ps, s) == Total(s)
  {
    if s == [] {
      SumOverPayersEmpty(ps);
    } else {
      var s' := s[..|s| - 1];
      var t := s[|s| - 1];
      assert s == s' + [t];
      PayersSnoc(s', t);
      TotalIsSumOfPayerTotals(ps, s');
      SumOverPayersSnoc(ps, s', t);
    }
  }

  /** One account per payer of `s`, in the order payers first occur. */
  function AccountsOf(s: seq<Transaction>): (r: seq<Account>)
  {
    var ps := TouchOrder(s);
    seq(|ps|, j requires 0 <= j < |ps| => Account(ps[j], PayerTotal(s, ps[j])))
  }

  /** The balances of the log: its accounts sorted by payer name. */
  function Balances(s: seq<Transaction>): (r: seq<Account>)
  {
    SortBy(AccountsOf(s), PayerLess)
  }

  /**
   The balance list holds exactly one account per payer of the log, payers with
   a zero sum included, each with that payer's sum, strictly ascending by name.
   */
  lemma BalancesSpec(s: seq<Transaction>)
    ensures forall i, j :: 0 <= i < j < |Balances(s)| ==> StringLess(Balances(s)[i].payer, Balances(s)[j].payer)
    ensures forall a :: a in Balances(s) <==> a.payer in Payers(s) && a.points == PayerTotal(s, a.payer)
  {
    var accounts := AccountsOf(s);
    var r := Balances(s);
    var ps := TouchOrder(s);
    PayerLessIsStrictOrder();
    SortBySorted(accounts, PayerLess);
    forall a ensures a in r <==> a in accounts {
      assert a in r <==> a in multiset(r);
      assert a in accounts <==> a in multiset(accounts);
    }
    forall a ensures a in accounts <==> a.payer in Payers(s) && a.points == PayerTotal(s, a.payer) {
      if a.payer in Payers(s) && a.points == PayerTotal(s, a.payer) {
        var j :| 0 <= j < |ps| && ps[j] == a.payer;
        assert accounts[j] == a;
      }
    }
    assert Distinct(accounts) by {
      forall i, j | 0 <= i < j < |accounts| ensures accounts[i] != accounts[j] {
        assert ps[i] != ps[j];
      }
    }
    PermutationOfDistinct(accounts, r);
    forall i, j | 0 <= i < j < |r| ensures StringLess(r[i].payer, r[j].payer) {
      assert r[i] in multiset(r) && r[j] in multiset(r);
      assert r[i] in accounts && r[j] in accounts;
      assert r[i] != r[j];
      StringLessTotal(r[i].payer, r[j].payer);
    }
  }

  /**
   Any duplicate-free list of exactly the log's accounts, ordered by payer name,
   is the balance list: the order the list was built in does not matter.
   */
  lemma BalancesUnique(s: seq<Transaction>, r: seq<Account>)
    requires Distinct(r) && SortedBy(r, PayerLess)
    requires forall i :: 0 <= i < |r| ==> r[i].payer in Payers(s) && r[i].points == PayerTotal(s, r[i].payer)
    requires forall p :: p in Payers(s) ==> exists i :: 0 <= i < |r| && r[i].payer == p
    ensures r == Balances(s)
  {
    var b := Balances(s);
    BalancesSpec(s);
    assert Distinct(b) by {
      forall i, j | 0 <= i < j < |b| ensures b[i] != b[j] {
        StringLessIrreflexive(b[i].payer);
      }
    }
    forall i | 0 <= i < |b| ensures b[i] in r {
      assert b[i] in b;
      var k :| 0 <= k < |r| && r[k].payer == b[i].payer;
    }
    SameElementsPermutation(b, r);
    SortedUnique(b, r, PayerLess);
  }

  /** Sorting by payer name any duplicate-free list of the log's accounts gives its balances. */
  lemma SortedAccountsAreBalances(s: seq<Transaction>, list: seq<Account>)
    requires Distinct(list)
    requires forall i :: 0 <= i < |list| ==> list[i].payer in Payers(s) && list[i].points == PayerTotal(s, list[i].payer)
    requires forall p :: p in Payers(s) ==> Account(p, PayerTotal(s, p)) in list
    ensures SortBy(list, PayerLess) == Balances(s)
  {
    var r := SortBy(list, PayerLess);
    PayerLessIsStrictOrder();
    SortBySorted(list, PayerLess);
    PermutationOfDistinct(list, r);
    forall i | 0 <= i < |r| ensures r[i] in list {
      assert r[i] in multiset(r);
    }
    forall p | p in Payers(s) ensures exists i :: 0 <= i < |r| && r[i].payer == p {
      var k :| 0 <= k < |list| && list[k] == Account(p, PayerTotal(s, p));
      assert list[k] in multiset(r);
      var i :| 0 <= i < |r| && r[i] == list[k];
    }
    BalancesUnique(s, r);
  }

  /** The balances depend only on which transactions the log holds, not on their order. */
  lemma BalancesPermutation(a: seq<Transaction>, b: seq<Transaction>)
    requires multiset(a) == multiset(b)
    ensures Balances(a) == Balances(b)
  {
    var r := Balances(a);
    BalancesSpec(a);
    PayersPermutation(a, b);
    forall p ensures PayerTotal(a, p) == PayerTotal(b, p) {
      PayerTotalPermutation(a, b, p);
    }
    assert Distinct(r) by {
      forall i, j | 0 <= i < j < |r| ensures r[i] != r[j] {
        StringLessIrreflexive(r[i].payer);
      }
    }
    assert SortedBy(r, PayerLess) by {
      forall i, j | 0 <= i < j < |r| ensures !PayerLess(r[j], r[i]) {
        if PayerLess(r[j], r[i]) {
          StringLessTransitive(r[i].payer, r[j].payer, r[i].payer);
          StringLessIrreflexive(r[i].payer);
        }
      }
    }
    forall i | 0 <= i < |r| ensures r[i].payer in Payers(b) && r[i].points == PayerTotal(b, r[i].payer) {
      assert r[i] in r;
    }
    forall p | p in Payers(b) ensures exists i :: 0 <= i < |r| && r[i].payer == p {
      assert Account(p, PayerTotal(a, p)) in r;
    }
    BalancesUnique(b, r);
  }
}
