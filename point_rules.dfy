/**
 The rules of the point service, stated on the time-ordered log: when a new
 transaction may be added, and what a spend of `points` charges to each payer.

 The spend walks the log oldest first with one counter, `points` minus the
 points of the transactions walked so far, and stops as soon as that counter
 is no longer positive. It therefore stops at the first prefix of the log
 whose total reaches `points` (ScanEnd); it succeeds iff such a prefix exists
 (Feasible); each payer of that prefix is charged its own points in the prefix,
 except that the payer of the last transaction walked gets back what that
 prefix holds beyond `points` (Share).
 */
module PointRules {
  import opened Model
  import opened Sorting
  import opened Ledger

  /** AddPoints' rule: a credit is always taken, a debit only if the payer's sum covers it. */
  predicate MayAdd(log: seq<Transaction>, t: Transaction)
  {
    t.points > 0 || PayerTotal(log, t.payer) >= -t.points
  }

  /** Transactions that AddPoints accepts keep every payer's sum non-negative. */
  lemma AddKeepsBalancesNonNegative(log: seq<Transaction>, t: Transaction)
    requires forall p :: PayerTotal(log, p) >= 0
    requires MayAdd(log, t)
    ensures forall p :: PayerTotal(log + [t], p) >= 0
  {
    forall p ensures PayerTotal(log + [t], p) >= 0 {
      PayerTotalAppend(log, [t], p);
      assert [t][..0] == [];
    }
  }

  /** Some prefix of the log, in the order given, holds at least `points`. */
  predicate Feasible(log: seq<Transaction>, points: int)
  {
    exists i :: 0 <= i <= |log| && Total(log[..i]) >= points
  }

  /** The first index from `i` on where the prefix total reaches `points`, else |log|. */
  function ScanFrom(log: seq<Transaction>, points: int, i: nat): (k: nat)
    requires i <= |log|
    ensures i <= k <= |log|
    ensures forall j :: i <= j < k ==> Total(log[..j]) < points
    ensures k < |log| ==> Total(log[..k]) >= points
    decreases |log| - i
  {
    if i == |log| || Total(log[..i]) >= points then i else ScanFrom(log, points, i + 1)
  }

  /** How many transactions the spend walks: up to the first prefix that reaches `points`. */
  function ScanEnd(log: seq<Transaction>, points: int): (k: nat)
    ensures k <= |log|
    ensures forall j :: 0 <= j < k ==> Total(log[..j]) < points
    ensures k < |log| ==> Total(log[..k]) >= points
  {
    ScanFrom(log, points, 0)
  }

  /** The walk stops at the only index that is short before and reaches there (or ends the log). */
  lemma ScanEndUnique(log: seq<Transaction>, points: int, k: nat)
    requires k <= |log|
    requires forall j :: 0 <= j < k ==> Total(log[..j]) < points
    requires k < |log| ==> Total(log[..k]) >= points
    ensures ScanEnd(log, points) == k
  {
  }

  /** A spend succeeds iff the prefix it stops at reaches `points`. */
  lemma {:induction false} FeasibleIffScanReaches(log: seq<Transaction>, points: int)
    ensures Feasible(log, points) <==> Total(log[..ScanEnd(log, points)]) >= points
  {
    var k := ScanEnd(log, points);
    if Feasible(log, points) {
      var i :| 0 <= i <= |log| && Total(log[..i]) >= points;
      assert k <= i;
      if k == |log| {
        assert i == |log|;
      }
    }
  }

  /**
   What the walk of the first `i` transactions charges payer `p`: minus its
   points among them, plus, for the payer of the i-th, what the prefix holds
   beyond `points` (the part of that transaction the walk clamped away).
   */
  function Share(log: seq<Transaction>, points: int, i: nat, p: string): int
    requires i <= |log|
  {
    var walked := Total(log[..i]);
    -PayerTotal(log[..i], p)
      + (if 0 < i && log[i - 1].payer == p && walked > points then walked - points else 0)
  }

  /**
   One step of the walk, while the counter `points - Total(log[..i])` is still
   positive: the payer of the i-th transaction is charged its points, or only
   the counter when its points exceed the counter; nobody else's share moves.
   */
  lemma ShareStep(log: seq<Transaction>, points: int, i: nat, p: string)
    requires i < |log| && Total(log[..i]) < points
    ensures var remaining := points - Total(log[..i]);
      Share(log, points, i + 1, p)
      == Share(log, points, i, p)
         + (if log[i].payer != p then 0
            else if log[i].points > remaining then -remaining
            else -log[i].points)
  {
    assert log[..i + 1][..i] == log[..i];
  }

  /** Settlement transactions for the payers `ps`, stamped start, start + 1, ... */
  function SettlementsFor(ps: seq<string>, log: seq<Transaction>, points: int, k: nat, start: int)
    : (r: seq<Transaction>)
    requires k <= |log|
    ensures |r| == |ps|
    ensures forall j :: 0 <= j < |ps| ==> r[j] == Transaction(ps[j], Share(log, points, k, ps[j]), start + j)
  {
    if ps == [] then []
    else
      var q := ps[|ps| - 1];
      SettlementsFor(ps[..|ps| - 1], log, points, k, start)
        + [Transaction(q, Share(log, points, k, q), start + |ps| - 1)]
  }

  /**
   What a successful spend of `points` returns: one settlement per payer the
   walk touched, zero charges included, in first-touch order, stamped with a
   clock reading `now` at the first touch and advancing by one per touch.
   */
  function Settlements(log: seq<Transaction>, points: int, now: int): (r: seq<Transaction>)
    ensures forall i, j :: 0 <= i < j < |r| ==> r[i].payer != r[j].payer && r[i].timestamp < r[j].timestamp
    ensures forall p :: p in Payers(log[..ScanEnd(log, points)]) <==> exists j :: 0 <= j < |r| && r[j].payer == p
    ensures forall j :: 0 <= j < |r| ==>
      r[j].points == Share(log, points, ScanEnd(log, points), r[j].payer) && r[j].timestamp == now + j
  {
    var k := ScanEnd(log, points);
    var ps := TouchOrder(log[..k]);
    var r := SettlementsFor(ps, log, points, k, now);
    assert forall j :: 0 <= j < |r| ==> r[j].payer == ps[j];
    assert forall p :: p in ps <==> exists j :: 0 <= j < |r| && r[j].payer == p by {
      forall p | p in ps ensures exists j :: 0 <= j < |r| && r[j].payer == p {
        var j :| 0 <= j < |ps| && ps[j] == p;
        assert r[j].payer == p;
      }
    }
    r
  }

  lemma {:induction false} SettlementsForTotal(ps: seq<string>, log: seq<Transaction>, points: int, k: nat, start: int)
    requires k <= |log| && Distinct(ps)
    ensures Total(SettlementsFor(ps, log, points, k, start))
         == -SumOverPayers(ps, log[..k])
            + (if 0 < k && log[k - 1].payer in ps && Total(log[..k]) > points then Total(log[..k]) - points else 0)
  {
    if ps != [] {
      var ps' := ps[..|ps| - 1];
      var q := ps[|ps| - 1];
      assert ps == ps' + [q];
      assert Distinct(ps');
      SettlementsForTotal(ps', log, points, k, start);
      var r := SettlementsFor(ps, log, points, k, start);
      assert r[..|r| - 1] == SettlementsFor(ps', log, points, k, start);
    }
  }

  /** Conservation: the settlements of a successful spend of `points` > 0 sum to exactly -`points`. */
  lemma SettlementsConserve(log: seq<Transaction>, points: int, now: int)
    requires points > 0 && Feasible(log, points)
    ensures Total(Settlements(log, points, now)) == -points
  {
    var k := ScanEnd(log, points);
    var ps := TouchOrder(log[..k]);
    FeasibleIffScanReaches(log, points);
    assert k > 0 by {
      assert log[..0] == [];
    }
    assert log[k - 1] in log[..k];
    assert log[k - 1].payer in ps;
    SettlementsForTotal(ps, log, points, k, now);
    TotalIsSumOfPayerTotals(ps, log[..k]);
  }

  /** After a successful spend of `points` > 0 appends its settlements, the log's total has dropped by exactly `points`. */
  lemma SpendLowersTotal(log: seq<Transaction>, points: int, now: int)
    requires points > 0 && Feasible(log, points)
    ensures Total(log + Settlements(log, points, now)) == Total(log) - points
  {
    TotalAppend(log, Settlements(log, points, now));
    SettlementsConserve(log, points, now);
  }

  /**
   Only the last transaction walked can be clamped: every earlier one is
   charged in full, because clamping drives the counter negative and ends the walk.
   */
  lemma OnlyLastClamped(log: seq<Transaction>, points: int, j: nat)
    requires j + 1 < ScanEnd(log, points)
    ensures log[j].points <= points - Total(log[..j])
  {
    assert log[..j + 1][..j] == log[..j];
  }

  /** A spend of zero or fewer points succeeds and settles nothing. */
  lemma NonPositiveSpend(log: seq<Transaction>, points: int, now: int)
    requires points <= 0
    ensures Feasible(log, points)
    ensures Settlements(log, points, now) == []
  {
    assert Total(log[..0]) == 0;
    ScanEndUnique(log, points, 0);
  }

  /**
   Transactions after the stopping point are never looked at: once a prefix
   reaches `points`, appending anything, earlier spends' settlements included,
   leaves the spend's outcome and settlements unchanged.
   */
  lemma SpendIgnoresLaterTransactions(log: seq<Transaction>, more: seq<Transaction>, points: int, now: int)
    requires Feasible(log, points)
    ensures Feasible(log + more, points)
    ensures Settlements(log + more, points, now) == Settlements(log, points, now)
  {
    var k := ScanEnd(log, points);
    FeasibleIffScanReaches(log, points);
    forall i | 0 <= i <= k ensures (log + more)[..i] == log[..i] {
    }
    ScanEndUnique(log + more, points, k);
    assert Total((log + more)[..k]) >= points;
    forall p ensures Share(log + more, points, k, p) == Share(log, points, k, p) {
      assert (log + more)[..k] == log[..k];
    }
    var r, r' := Settlements(log, points, now), Settlements(log + more, points, now);
    assert r == SettlementsFor(TouchOrder(log[..k]), log, points, k, now);
    assert r' == SettlementsFor(TouchOrder(log[..k]), log + more, points, k, now);
  }
}
