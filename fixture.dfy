/**
 The repository's five-transaction data set, at Unix-second timestamps, and
 what the ledger makes of it: its time order, its balances, the spend of 5000
 points, and the whole add-then-spend run against a fresh database.
 */
module Fixture {
  import opened Model
  import opened Sorting
  import opened Ledger
  import opened PointRules
  import opened Db
  import opened Services

  /** The data set in the order it is listed (2020-11-02T14:00Z, 2020-10-31T11:00Z, ...). */
  const Data: seq<Transaction> := [
    Transaction("DANNON", 1000, 1604325600),
    Transaction("UNILEVER", 200, 1604142000),
    Transaction("DANNON", -200, 1604156400),
    Transaction("MILLER COORS", 10000, 1604239200),
    Transaction("DANNON", 300, 1604138400)
  ]

  /** The data set oldest first. */
  const TimeOrdered: seq<Transaction> := [
    Transaction("DANNON", 300, 1604138400),
    Transaction("UNILEVER", 200, 1604142000),
    Transaction("DANNON", -200, 1604156400),
    Transaction("MILLER COORS", 10000, 1604239200),
    Transaction("DANNON", 1000, 1604325600)
  ]

  /** The balances of the data set, by payer name. */
  const FixtureBalances: seq<Account> := [
    Account("DANNON", 1100),
    Account("MILLER COORS", 10000),
    Account("UNILEVER", 200)
  ]

  /**
   The shape both orderings of the data set share: five transactions whose
   first, third and fifth have one payer, and whose second and fourth have two
   other, different payers.
   */
  predicate ThreePayers(s: seq<Transaction>)
  {
    && |s| == 5
    && s[2].payer == s[0].payer && s[4].payer == s[0].payer
    && s[1].payer != s[0].payer && s[3].payer != s[0].payer && s[3].payer != s[1].payer
  }

  /** The totals of the first four prefixes of a log, by its first transactions' points. */
  lemma PrefixTotals(s: seq<Transaction>)
    requires |s| >= 4
    ensures Total(s[..0]) == 0
    ensures Total(s[..1]) == s[0].points
    ensures Total(s[..2]) == s[0].points + s[1].points
    ensures Total(s[..3]) == s[0].points + s[1].points + s[2].points
    ensures Total(s[..4]) == s[0].points + s[1].points + s[2].points + s[3].points
  {
    assert s[..0] == [];
    PrefixStep(s, 0);
    PrefixStep(s, 1);
    PrefixStep(s, 2);
    PrefixStep(s, 3);
  }

  /** A log of that shape touches its three payers in order, with these sums. */
  lemma ThreePayersTotals(s: seq<Transaction>)
    requires ThreePayers(s)
    ensures TouchOrder(s[..4]) == [s[0].payer, s[1].payer, s[3].payer]
    ensures TouchOrder(s) == [s[0].payer, s[1].payer, s[3].payer]
    ensures PayerTotal(s[..2], s[0].payer) == s[0].points
    ensures PayerTotal(s[..4], s[0].payer) == s[0].points + s[2].points
    ensures PayerTotal(s, s[0].payer) == s[0].points + s[2].points + s[4].points
    ensures PayerTotal(s[..4], s[1].payer) == PayerTotal(s, s[1].payer) == s[1].points
    ensures PayerTotal(s[..4], s[3].payer) == PayerTotal(s, s[3].payer) == s[3].points
  {
    ThreePayersTouchOrder(s);
    var a, b, c := s[0].payer, s[1].payer, s[3].payer;
    assert s[..0] == [] && s[..5] == s;
    for k := 0 to 5
      invariant PayerTotal(s[..k], a) == (if k > 0 then s[0].points else 0) + (if k > 2 then s[2].points else 0)
                                         + (if k > 4 then s[4].points else 0)
      invariant PayerTotal(s[..k], b) == if k > 1 then s[1].points else 0
      invariant PayerTotal(s[..k], c) == if k > 3 then s[3].points else 0
    {
      PayerStep(s, k, a);
      PayerStep(s, k, b);
      PayerStep(s, k, c);
    }
  }

  /** The touch order of a log of that shape, before and after its last transaction. */
  lemma ThreePayersTouchOrder(s: seq<Transaction>)
    requires ThreePayers(s)
    ensures TouchOrder(s[..4]) == [s[0].payer, s[1].payer, s[3].payer]
    ensures TouchOrder(s) == [s[0].payer, s[1].payer, s[3].payer]
  {
    var a, b, c := s[0].payer, s[1].payer, s[3].payer;
    assert s[..0] == [] && s[..5] == s;
    for k := 0 to 5
      invariant TouchOrder(s[..k]) == [a, b, c][..if k < 2 then k else if k < 4 then 2 else 3]
    {
      PrefixStep(s, k);
    }
  }

  /** Five transactions stamped in strictly increasing time are strictly time-ordered. */
  lemma IncreasingStamps(s: seq<Transaction>)
    requires |s| == 5
    requires s[0].timestamp < s[1].timestamp < s[2].timestamp < s[3].timestamp < s[4].timestamp
    ensures StrictlySortedBy(s, Before)
  {
  }

  /** Swapping the first and the last of five transactions keeps the multiset. */
  lemma SwapEnds(s: seq<Transaction>)
    requires |s| == 5
    ensures multiset([s[4], s[1], s[2], s[3], s[0]]) == multiset(s)
  {
    var mid := s[1..4];
    assert s == [s[0]] + mid + [s[4]];
    assert [s[4], s[1], s[2], s[3], s[0]] == [s[4]] + mid + [s[0]];
  }

  /** Timestamps in the data set are distinct, so any time-ordered arrangement of it is TimeOrdered. */
  lemma FixtureTimeOrder(log: seq<Transaction>)
    requires SortedBy(log, Before) && multiset(log) == multiset(Data)
    ensures log == TimeOrdered
  {
    IncreasingStamps(TimeOrdered);
    SwapEnds(Data);
    assert TimeOrdered == [Data[4], Data[1], Data[2], Data[3], Data[0]];
    SortedUnique(TimeOrdered, log, Before);
  }

  /** Three accounts whose names ascend are sorted by name and distinct. */
  lemma AscendingNames(r: seq<Account>)
    requires |r| == 3 && StringLess(r[0].payer, r[1].payer) && StringLess(r[1].payer, r[2].payer)
    ensures SortedBy(r, PayerLess) && Distinct(r)
  {
    var a, b, c := r[0].payer, r[1].payer, r[2].payer;
    StringLessTransitive(a, b, c);
    StringLessIrreflexive(a);
    StringLessIrreflexive(b);
    if StringLess(b, a) {
      StringLessTransitive(a, b, a);
    }
    if StringLess(c, b) {
      StringLessTransitive(b, c, b);
    }
    if StringLess(c, a) {
      StringLessTransitive(a, c, a);
    }
  }

  /**
   A log of that shape, in any order, has three accounts sorted by payer name,
   when the first payer's name sorts first and the second payer's last.
   */
  lemma ThreePayersBalances(s: seq<Transaction>, log: seq<Transaction>)
    requires ThreePayers(s) && multiset(log) == multiset(s)
    requires StringLess(s[0].payer, s[3].payer) && StringLess(s[3].payer, s[1].payer)
    ensures Balances(log)
         == [Account(s[0].payer, s[0].points + s[2].points + s[4].points),
             Account(s[3].payer, s[3].points), Account(s[1].payer, s[1].points)]
  {
    var r := [Account(s[0].payer, s[0].points + s[2].points + s[4].points),
              Account(s[3].payer, s[3].points), Account(s[1].payer, s[1].points)];
    ThreePayersTotals(s);
    AscendingNames(r);
    forall p | p in Payers(s) ensures exists i :: 0 <= i < |r| && r[i].payer == p {
      assert p in TouchOrder(s);
      if p == s[0].payer {
        assert r[0].payer == p;
      } else if p == s[3].payer {
        assert r[1].payer == p;
      } else {
        assert r[2].payer == p;
      }
    }
    forall i | 0 <= i < |r| ensures r[i].payer in Payers(s) {
      assert r[i].payer in TouchOrder(s);
    }
    BalancesUnique(s, r);
    BalancesPermutation(s, log);
  }

  /** Three accounts, DANNON first with 1100, whatever the order of the log. */
  lemma FixtureAccounts(log: seq<Transaction>)
    requires multiset(log) == multiset(Data)
    ensures Balances(log) == FixtureBalances
  {
    assert StringLess("DANNON", "MILLER COORS") && StringLess("MILLER COORS", "UNILEVER");
    ThreePayersBalances(Data, log);
  }

  /** What the spend of 5000 charges each payer of the time-ordered data set. */
  lemma TimeOrderedShares()
    ensures ScanEnd(TimeOrdered, 5000) == 4 && Total(TimeOrdered[..4]) >= 5000
    ensures TouchOrder(TimeOrdered[..4]) == ["DANNON", "UNILEVER", "MILLER COORS"]
    ensures Share(TimeOrdered, 5000, 4, "DANNON") == -100
    ensures Share(TimeOrdered, 5000, 4, "UNILEVER") == -200
    ensures Share(TimeOrdered, 5000, 4, "MILLER COORS") == -4700
  {
    PrefixTotals(TimeOrdered);
    ScanEndUnique(TimeOrdered, 5000, 4);
    ThreePayersTotals(TimeOrdered);
  }

  /** The spend of 5000 stops after MILLER COORS and charges DANNON 100, UNILEVER 200, MILLER COORS 4700. */
  lemma FixtureSpend(now: int)
    ensures Feasible(TimeOrdered, 5000)
    ensures Settlements(TimeOrdered, 5000, now)
         == [Transaction("DANNON", -100, now), Transaction("UNILEVER", -200, now + 1),
             Transaction("MILLER COORS", -4700, now + 2)]
  {
    TimeOrderedShares();
    FeasibleIffScanReaches(TimeOrdered, 5000);
    assert Settlements(TimeOrdered, 5000, now)
        == SettlementsFor(["DANNON", "UNILEVER", "MILLER COORS"], TimeOrdered, 5000, 4, now);
  }

  /** The database's own test: two appends to a fresh database keep them in the order given. */
  method AddTwoToFreshDb() returns (log: seq<Transaction>)
    ensures |log| == 2 && log[0] == Transaction("DANNON", 1000, 1604325600)
  {
    var db := new InMemoryDB();
    db.AddTransaction(Data[0]);
    db.AddTransaction(Data[1]);
    log := db.transactions;
  }

  /** Each transaction of the data set passes AddPoints' rule once the ones listed before it are in the log. */
  lemma DataAddable(k: nat, log: seq<Transaction>)
    requires k < |Data| && multiset(log) == multiset(Data[..k])
    ensures MayAdd(log, Data[k])
  {
    if k == 2 {
      ThreePayersTotals(Data);
      PayerTotalPermutation(log, Data[..2], "DANNON");
    }
  }

  /**
   A model of the service's test run: a fresh database and service, the data set added
   in the order listed, the balances read, then 5000 points spent. Every add
   succeeds, DANNON holds 1100, the spend settles DANNON -100, UNILEVER -200
   and MILLER COORS -4700 stamped in that order, and the log holds eight
   transactions, the oldest first.
   */
  method SpendFixture(now: int)
    returns (added: seq<Outcome>, accounts: seq<Account>, settled: seq<Transaction>, outcome: Outcome,
             log: seq<Transaction>)
    ensures |added| == |Data| && forall j :: 0 <= j < |added| ==> added[j] == Success
    ensures accounts == FixtureBalances
    ensures outcome == Success
    ensures settled == [Transaction("DANNON", -100, now), Transaction("UNILEVER", -200, now + 1),
                        Transaction("MILLER COORS", -4700, now + 2)]
    ensures |log| == 8 && log[0] == Transaction("DANNON", 300, 1604138400)
    ensures multiset(log[5..]) == multiset(settled)
  {
    var db := new InMemoryDB();
    var service := new PointService(db);
    added := [];
    for k := 0 to |Data|
      invariant multiset(db.transactions) == multiset(Data[..k])
      invariant |added| == k && forall j :: 0 <= j < k ==> added[j] == Success
    {
      DataAddable(k, db.transactions);
      var result := service.AddPoints(Data[k]);
      added := added + [result];
      assert Data[..k + 1] == Data[..k] + [Data[k]];
    }
    assert Data[..|Data|] == Data;
    accounts := ReadFixture(service);
    settled, outcome := SpendOnFixture(service, now);
    log := db.transactions;
  }

  /** The balances of a log holding the data set, in any order. */
  method ReadFixture(service: PointService) returns (accounts: seq<Account>)
    requires multiset(service.db.transactions) == multiset(Data)
    ensures accounts == FixtureBalances
  {
    FixtureAccounts(service.db.transactions);
    accounts := service.GetAccounts();
  }

  /** The spend of 5000 on a log holding the data set, in any order. */
  method SpendOnFixture(service: PointService, now: int) returns (settled: seq<Transaction>, outcome: Outcome)
    requires multiset(service.db.transactions) == multiset(Data)
    modifies service.db
    ensures outcome == Success
    ensures settled == [Transaction("DANNON", -100, now), Transaction("UNILEVER", -200, now + 1),
                        Transaction("MILLER COORS", -4700, now + 2)]
    ensures |service.db.transactions| == 8 && service.db.transactions[0] == Transaction("DANNON", 300, 1604138400)
    ensures multiset(service.db.transactions[5..]) == multiset(settled)
  {
    settled, outcome := service.SpendPoints(5000, now);
    ghost var log := service.db.transactions;
    assert log[..5] == TimeOrdered by {
      FixtureTimeOrder(log[..5]);
    }
    FixtureSpend(now);
    assert |log[5..]| == |multiset(settled)| == 3;
  }

  /**
   Two transactions with the same timestamp may be stored in either order, and
   the order decides the spend: A's credit first reaches 100, B's debit first
   never does.
   */
  lemma TieDecidesSpend()
    ensures var a, b := Transaction("A", 100, 5), Transaction("B", -100, 5);
      && SortedBy([a, b], Before) && SortedBy([b, a], Before)
      && multiset([a, b]) == multiset([b, a])
      && Feasible([a, b], 100) && !Feasible([b, a], 100)
  {
    var a, b := Transaction("A", 100, 5), Transaction("B", -100, 5);
    assert [a, b][..1] == [a];
    var log := [b, a];
    assert log[..0] == [] && log[..1] == [b] && log[..2] == log;
    PrefixStep(log, 0);
    PrefixStep(log, 1);
    assert forall i :: 0 <= i <= 2 ==> Total(log[..i]) < 100;
  }

  /**
   A spend succeeds on a log whose total is below the amount, and drives a
   payer below zero: A earns 100 and is charged 100, both accepted by
   AddPoints, and a spend of 50 stops at A's first transaction and charges A 50.
   */
  lemma SpendCanOverdraw(now: int)
    ensures var log := [Transaction("A", 100, 1), Transaction("A", -100, 2)];
      && MayAdd([log[0]], log[1])
      && Total(log) == 0
      && Feasible(log, 50)
      && Settlements(log, 50, now) == [Transaction("A", -50, now)]
      && PayerTotal(log + Settlements(log, 50, now), "A") == -50
  {
    var log := [Transaction("A", 100, 1), Transaction("A", -100, 2)];
    assert log[..1] == [log[0]] && log[..0] == [];
    ScanEndUnique(log, 50, 1);
    assert TouchOrder(log[..1]) == ["A"];
    FeasibleIffScanReaches(log, 50);
    var s := Settlements(log, 50, now);
    assert s == [Transaction("A", -50, now)];
    assert (log + s)[..2] == log;
  }

  /** A log where B's credit and debit cancel out before the spend of 200 ends at A's second credit. */
  const ZeroLog: seq<Transaction> := [
    Transaction("A", 100, 1), Transaction("B", 50, 2), Transaction("B", -50, 3), Transaction("A", 100, 4)
  ]

  /** A log whose two payers each occur twice, the second one's two in the middle. */
  lemma TwoPayersTotals(s: seq<Transaction>)
    requires |s| == 4 && s[1].payer != s[0].payer && s[2].payer == s[1].payer && s[3].payer == s[0].payer
    ensures TouchOrder(s) == [s[0].payer, s[1].payer]
    ensures PayerTotal(s, s[0].payer) == s[0].points + s[3].points
    ensures PayerTotal(s, s[1].payer) == s[1].points + s[2].points
  {
    var a, b := s[0].payer, s[1].payer;
    assert s[..0] == [] && s[..4] == s;
    for k := 0 to 4
      invariant TouchOrder(s[..k]) == [a, b][..if k < 2 then k else 2]
      invariant PayerTotal(s[..k], a) == (if k > 0 then s[0].points else 0) + (if k > 3 then s[3].points else 0)
      invariant PayerTotal(s[..k], b) == (if k > 1 then s[1].points else 0) + (if k > 2 then s[2].points else 0)
    {
      PrefixStep(s, k);
      PayerStep(s, k, a);
      PayerStep(s, k, b);
    }
  }

  /** A payer whose charges cancel out still gets a settlement, of zero points. */
  lemma SpendSettlesZero(now: int)
    ensures Settlements(ZeroLog, 200, now) == [Transaction("A", -200, now), Transaction("B", 0, now + 1)]
  {
    var log := ZeroLog;
    PrefixTotals(log);
    assert log[..4] == log;
    ScanEndUnique(log, 200, 4);
    TwoPayersTotals(log);
    assert Settlements(log, 200, now) == SettlementsFor(["A", "B"], log, 200, 4, now);
  }
}
