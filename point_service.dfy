/**
 The point service: adds transactions under the non-negative-balance rule and
 spends points oldest first, writing one settlement transaction per payer it
 charged. It holds the database it works on and changes nothing else.
 */
module Services {
  import opened Model
  import opened Sorting
  import opened Ledger
  import opened Db
  import opened PointRules

  class PointService {
    const db: InMemoryDB

    /** NewPointService. */
    constructor (db: InMemoryDB)
      ensures this.db == db
    {
      this.db := db;
    }

    /**
     getTotalPointsForPayer: the payer's sum, 0 for an unknown payer. It reads
     the log through GetTransactions, so the stored log ends up time-ordered.
     */
    method TotalPointsForPayer(payer: string) returns (pointSum: int)
      modifies db
      ensures pointSum == PayerTotal(old(db.transactions), payer)
      ensures SortedBy(db.transactions, Before)
      ensures multiset(db.transactions) == multiset(old(db.transactions))
    {
      pointSum := 0;
      var transactions := db.GetTransactions();
      for i := 0 to |transactions|
        invariant pointSum == PayerTotal(transactions[..i], payer)
      {
        assert transactions[..i + 1][..i] == transactions[..i];
        if transactions[i].payer == payer {
          pointSum := pointSum + transactions[i].points;
        }
      }
      assert transactions[..|transactions|] == transactions;
      PayerTotalPermutation(transactions, old(db.transactions), payer);
    }

    /**
     A credit is appended as it is. A debit (or zero) first reads the payer's
     sum, which time-orders the stored log, and is appended only if that sum
     covers it; otherwise NotEnoughPoints and nothing is appended.
     */
    method AddPoints(t: Transaction) returns (outcome: Outcome)
      modifies db
      ensures outcome == Success <==> MayAdd(old(db.transactions), t)
      ensures outcome != Success ==> outcome == Failure(NotEnoughPoints)
      ensures multiset(db.transactions)
           == multiset(old(db.transactions)) + (if outcome == Success then multiset{t} else multiset{})
      ensures t.points > 0 ==> db.transactions == old(db.transactions) + [t]
      ensures t.points <= 0 ==>
        |db.transactions| == |old(db.transactions)| + (if outcome == Success then 1 else 0)
      ensures t.points <= 0 ==>
        SortedBy(db.transactions[..|old(db.transactions)|], Before)
        && multiset(db.transactions[..|old(db.transactions)|]) == multiset(old(db.transactions))
      ensures t.points <= 0 && outcome == Success ==> db.transactions[|old(db.transactions)|] == t
    {
      if t.points > 0 {
        db.AddTransaction(t);
        outcome := Success;
      } else {
        var totalPoints := TotalPointsForPayer(t.payer);
        ghost var sorted := db.transactions;
        assert |sorted| == |multiset(sorted)| == |old(db.transactions)|;
        if totalPoints >= -t.points {
          db.AddTransaction(t);
          outcome := Success;
        } else {
          outcome := Failure(NotEnoughPoints);
        }
        assert db.transactions[..|old(db.transactions)|] == sorted;
      }
    }

    /**
     Spends `points` oldest first. time.Now() is a clock that reads `now` at the
     first payer touched and one more at each further payer. On success the
     settlements are appended to the log in no promised order and returned in
     time order; on failure nothing is appended. Either way the stored log has
     been time-ordered first.
     */
    method SpendPoints(points: int, now: int) returns (settled: seq<Transaction>, outcome: Outcome)
      modifies db
      ensures |old(db.transactions)| <= |db.transactions|
      ensures SortedBy(db.transactions[..|old(db.transactions)|], Before)
      ensures multiset(db.transactions[..|old(db.transactions)|]) == multiset(old(db.transactions))
      ensures outcome == Success <==> Feasible(db.transactions[..|old(db.transactions)|], points)
      ensures outcome == Success ==>
        settled == Settlements(db.transactions[..|old(db.transactions)|], points, now)
        && multiset(db.transactions[|old(db.transactions)|..]) == multiset(settled)
      ensures outcome != Success ==>
        outcome == Failure(NotEnoughPoints) && settled == [] && |db.transactions| == |old(db.transactions)|
      ensures outcome == Success && points > 0 ==> Total(db.transactions) == Total(old(db.transactions)) - points
    {
      var transactions := db.GetTransactions();
      assert |transactions| == |multiset(transactions)| == |old(db.transactions)|;
      var newTranMap, pointsRemaining := Walk(transactions, points, now);
      ghost var touched := TouchOrder(transactions[..ScanEnd(transactions, points)]);
      FeasibleIffScanReaches(transactions, points);
      if pointsRemaining > 0 {
        settled := [];
        outcome := Failure(NotEnoughPoints);
        assert db.transactions[..|old(db.transactions)|] == transactions;
        return;
      }
      var newTransactions := AppendSettlements(newTranMap);
      settled := SortBy(newTransactions, Before);
      outcome := Success;
      SettledInTimeOrder(transactions, points, now, newTranMap, touched, newTransactions);
      assert db.transactions[..|old(db.transactions)|] == transactions;
      assert db.transactions[|old(db.transactions)|..] == newTransactions;
      if points > 0 {
        SpendLowersStoredTotal(old(db.transactions), db.transactions, points, now, settled);
      }
    }

    /**
     The second half of SpendPoints: appends every settlement of the map to the
     log, one AddTransaction each, in the map's (unspecified) order.
     */
    method AppendSettlements(newTranMap: map<string, Transaction>) returns (newTransactions: seq<Transaction>)
      requires forall p :: p in newTranMap ==> newTranMap[p].payer == p
      modifies db
      ensures db.transactions == old(db.transactions) + newTransactions
      ensures Distinct(newTransactions)
      ensures forall j :: 0 <= j < |newTransactions| ==>
        newTransactions[j].payer in newTranMap && newTransactions[j] == newTranMap[newTransactions[j].payer]
      ensures forall p :: p in newTranMap ==> newTranMap[p] in newTransactions
    {
      var pending := newTranMap.Keys;
      newTransactions := [];
      while pending != {}
        invariant pending <= newTranMap.Keys
        invariant db.transactions == old(db.transactions) + newTransactions
        invariant forall j :: 0 <= j < |newTransactions| ==>
          newTransactions[j].payer in newTranMap.Keys - pending
          && newTransactions[j] == newTranMap[newTransactions[j].payer]
        invariant forall p :: p in newTranMap && p !in pending ==> newTranMap[p] in newTransactions
        invariant Distinct(newTransactions)
        decreases pending
      {
        var p :| p in pending;
        newTransactions := newTransactions + [newTranMap[p]];
        db.AddTransaction(newTranMap[p]);
        pending := pending - {p};
      }
    }

    /** Passes the database's balances through. */
    method GetAccounts() returns (accounts: seq<Account>)
      ensures accounts == Balances(db.transactions)
    {
      accounts := db.GetAccounts();
    }
  }

  /**
   The first half of SpendPoints: walks the time-ordered log oldest first,
   charging each payer, until the counter `points` minus the points walked is
   no longer positive or the log ends. Stops exactly at ScanEnd, with one map
   entry per payer touched, holding its share.
   */
  method Walk(transactions: seq<Transaction>, points: int, now: int)
    returns (newTranMap: map<string, Transaction>, pointsRemaining: int)
    ensures WalkResult(transactions, points, now, newTranMap, pointsRemaining)
  {
    pointsRemaining := points;
    var clock := now;
    newTranMap := map[];
    var n := 0;
    while n < |transactions| && pointsRemaining > 0
      invariant 0 <= n <= |transactions|
      invariant pointsRemaining == points - Total(transactions[..n])
      invariant n <= ScanEnd(transactions, points)
      invariant WalkState(newTranMap, clock) == Walked(transactions, points, now, n)
    {
      var tran := transactions[n];
      var balanceDiff := -tran.points;
      if tran.points > pointsRemaining {
        balanceDiff := -pointsRemaining;
      }
      WalkStep(transactions, points, n);
      assert Total(transactions[..n + 1]) == Total(transactions[..n]) + transactions[n].points by {
        PrefixStep(transactions, n);
      }
      assert balanceDiff == Charge(transactions, points, n);
      WalkedNext(transactions, points, now, n, newTranMap, clock);
      pointsRemaining := pointsRemaining - tran.points;
      if tran.payer in newTranMap {
        var t := newTranMap[tran.payer];
        newTranMap := newTranMap[tran.payer := t.(points := t.points + balanceDiff)];
      } else {
        newTranMap := newTranMap[tran.payer := Transaction(tran.payer, balanceDiff, clock)];
        clock := clock + 1;
      }
      n := n + 1;
    }
    WalkDone(transactions, points, now, n, pointsRemaining, newTranMap, clock);
  }

  /**
   What the walk leaves behind: the counter is `points` minus the points up to
   ScanEnd, and the map holds exactly the payers walked, each with its share,
   stamped by its first-touch position.
   */
  ghost predicate WalkResult(log: seq<Transaction>, points: int, now: int,
                             m: map<string, Transaction>, pointsRemaining: int)
  {
    var k := ScanEnd(log, points);
    && pointsRemaining == points - Total(log[..k])
    && Accumulated(log, points, now, k, TouchOrder(log[..k]), m)
    && (forall p :: p in m ==> p in TouchOrder(log[..k]))
  }

  /** Where the walk's loop exits, at ScanEnd, its map holds the shares of the payers walked. */
  lemma WalkDone(log: seq<Transaction>, points: int, now: int, n: nat, pointsRemaining: int,
                 m: map<string, Transaction>, clock: int)
    requires n <= |log| && n <= ScanEnd(log, points)
    requires pointsRemaining == points - Total(log[..n])
    requires !(n < |log| && pointsRemaining > 0)
    requires WalkState(m, clock) == Walked(log, points, now, n)
    ensures WalkResult(log, points, now, m, pointsRemaining)
  {
    assert n == ScanEnd(log, points);
    WalkedIsShares(log, points, now, n);
    WalkedClock(log, points, now, n);
  }

  /** The state of the spend's walk: the settlement per payer touched, and the clock. */
  datatype WalkState = WalkState(tranMap: map<string, Transaction>, clock: int)

  /**
   The state after walking the first `i` transactions: the payer of each gets
   its charge added to its entry, or a new entry stamped with the clock, which
   then advances by one.
   */
  function Walked(log: seq<Transaction>, points: int, now: int, i: nat): WalkState
    requires i <= |log|
  {
    if i == 0 then WalkState(map[], now)
    else
      var w := Walked(log, points, now, i - 1);
      var p := log[i - 1].payer;
      if p in w.tranMap then
        WalkState(w.tranMap[p := w.tranMap[p].(points := w.tranMap[p].points + Charge(log, points, i - 1))], w.clock)
      else
        WalkState(w.tranMap[p := Transaction(p, Charge(log, points, i - 1), w.clock)], w.clock + 1)
  }

  /** The walk's map has one key per payer walked, and the clock has advanced once per payer. */
  lemma {:induction false} WalkedClock(log: seq<Transaction>, points: int, now: int, i: nat)
    requires i <= |log|
    ensures forall p :: p in Walked(log, points, now, i).tranMap <==> p in TouchOrder(log[..i])
    ensures Walked(log, points, now, i).clock == now + |TouchOrder(log[..i])|
  {
    if i > 0 {
      WalkedClock(log, points, now, i - 1);
      assert log[..i] == log[..i - 1] + [log[i - 1]];
      TouchOrderSnoc(log[..i - 1], log[i - 1]);
    }
  }

  /** Up to ScanEnd, the walk's map holds each touched payer's share, stamped in first-touch order. */
  lemma {:induction false} WalkedIsShares(log: seq<Transaction>, points: int, now: int, i: nat)
    requires i <= |log| && i <= ScanEnd(log, points)
    ensures Accumulated(log, points, now, i, TouchOrder(log[..i]), Walked(log, points, now, i).tranMap)
  {
    if i > 0 {
      WalkedIsShares(log, points, now, i - 1);
      if log[i - 1].payer in Walked(log, points, now, i - 1).tranMap {
        WalkTouched(log, points, now, i - 1);
      } else {
        WalkNew(log, points, now, i - 1);
      }
    }
  }

  /** One step of the walk from a known state: the map and the clock after the next transaction. */
  lemma WalkedNext(log: seq<Transaction>, points: int, now: int, n: nat, m: map<string, Transaction>, c: int)
    requires n < |log| && WalkState(m, c) == Walked(log, points, now, n)
    ensures var p := log[n].payer;
      Walked(log, points, now, n + 1)
      == if p in m then WalkState(m[p := m[p].(points := m[p].points + Charge(log, points, n))], c)
         else WalkState(m[p := Transaction(p, Charge(log, points, n), c)], c + 1)
  {
  }

  /**
   The spend's map after walking the first `i` transactions: one entry per
   payer touched so far, in first-touch order, holding that payer's share and
   the clock reading taken when the payer was first touched.
   */
  ghost predicate Accumulated(log: seq<Transaction>, points: int, now: int, i: nat,
                              touched: seq<string>, acc: map<string, Transaction>)
  {
    && i <= |log|
    && touched == TouchOrder(log[..i])
    && (forall j :: 0 <= j < |touched| ==>
          touched[j] in acc && acc[touched[j]] == Transaction(touched[j], Share(log, points, i, touched[j]), now + j))
  }

  /** One pass of the spend's loop, while the counter `points - Total(log[..i])` is positive, stays within ScanEnd. */
  lemma WalkStep(log: seq<Transaction>, points: int, i: nat)
    requires i < |log| && i <= ScanEnd(log, points) && Total(log[..i]) < points
    ensures i + 1 <= ScanEnd(log, points)
  {
  }

  /**
   The stored log after a successful positive spend, whatever order the
   settlements were appended in, has its total lowered by exactly the amount.
   */
  lemma SpendLowersStoredTotal(before: seq<Transaction>, after: seq<Transaction>, points: int, now: int, settled: seq<Transaction>)
    requires points > 0 && |before| <= |after|
    requires multiset(after[..|before|]) == multiset(before)
    requires Feasible(after[..|before|], points)
    requires settled == Settlements(after[..|before|], points, now)
    requires multiset(after[|before|..]) == multiset(settled)
    ensures Total(after) == Total(before) - points
  {
    AppendedTotal(before, after, settled);
    SettlementsConserve(after[..|before|], points, now);
  }

  /** The charge of the walk's i-th transaction: its points, clamped to the counter. */
  function Charge(log: seq<Transaction>, points: int, i: nat): int
    requires i < |log|
  {
    var remaining := points - Total(log[..i]);
    if log[i].points > remaining then -remaining else -log[i].points
  }

  /** A payer already touched gets the charge added to its entry. */
  lemma WalkTouched(log: seq<Transaction>, points: int, now: int, i: nat)
    requires i < |log| && i < ScanEnd(log, points)
    requires Accumulated(log, points, now, i, TouchOrder(log[..i]), Walked(log, points, now, i).tranMap)
    requires log[i].payer in Walked(log, points, now, i).tranMap
    ensures Accumulated(log, points, now, i + 1, TouchOrder(log[..i + 1]), Walked(log, points, now, i + 1).tranMap)
  {
    assert log[i].payer in TouchOrder(log[..i]) by {
      WalkedClock(log, points, now, i);
    }
    WalkedNext(log, points, now, i, Walked(log, points, now, i).tranMap, Walked(log, points, now, i).clock);
    AccumulateTouched(log, points, now, i, TouchOrder(log[..i]), Walked(log, points, now, i).tranMap);
  }

  /** A payer not yet touched gets a new entry stamped with the clock, which reads `now` plus the payers before it. */
  lemma WalkNew(log: seq<Transaction>, points: int, now: int, i: nat)
    requires i < |log| && i < ScanEnd(log, points)
    requires Accumulated(log, points, now, i, TouchOrder(log[..i]), Walked(log, points, now, i).tranMap)
    requires log[i].payer !in Walked(log, points, now, i).tranMap
    ensures Accumulated(log, points, now, i + 1, TouchOrder(log[..i + 1]), Walked(log, points, now, i + 1).tranMap)
  {
    assert log[i].payer !in TouchOrder(log[..i]) && Walked(log, points, now, i).clock == now + |TouchOrder(log[..i])| by {
      WalkedClock(log, points, now, i);
    }
    WalkedNext(log, points, now, i, Walked(log, points, now, i).tranMap, Walked(log, points, now, i).clock);
    AccumulateNew(log, points, now, i, TouchOrder(log[..i]), Walked(log, points, now, i).tranMap);
  }

  /** The charge added to a touched payer's entry keeps the map accumulated. */
  lemma AccumulateTouched(log: seq<Transaction>, points: int, now: int, i: nat,
                          touched: seq<string>, acc: map<string, Transaction>)
    requires Accumulated(log, points, now, i, touched, acc)
    requires i < |log| && i < ScanEnd(log, points)
    requires log[i].payer in touched && log[i].payer in acc
    ensures Accumulated(log, points, now, i + 1, touched,
                        acc[log[i].payer := acc[log[i].payer].(points := acc[log[i].payer].points + Charge(log, points, i))])
  {
    var p := log[i].payer;
    var acc' := acc[p := acc[p].(points := acc[p].points + Charge(log, points, i))];
    WalkStep(log, points, i);
    assert TouchOrder(log[..i + 1]) == touched by {
      assert log[..i + 1] == log[..i] + [log[i]];
      TouchOrderSnoc(log[..i], log[i]);
    }
    forall j | 0 <= j < |touched|
      ensures touched[j] in acc' && acc'[touched[j]] == Transaction(touched[j], Share(log, points, i + 1, touched[j]), now + j)
    {
      ShareStep(log, points, i, touched[j]);
    }
  }

  /** A new entry for a payer not yet touched keeps the map accumulated. */
  lemma AccumulateNew(log: seq<Transaction>, points: int, now: int, i: nat,
                      touched: seq<string>, acc: map<string, Transaction>)
    requires Accumulated(log, points, now, i, touched, acc)
    requires i < |log| && i < ScanEnd(log, points)
    requires log[i].payer !in touched && log[i].payer !in acc
    ensures Accumulated(log, points, now, i + 1, touched + [log[i].payer],
                        acc[log[i].payer := Transaction(log[i].payer, Charge(log, points, i), now + |touched|)])
  {
    var p := log[i].payer;
    var touched' := touched + [p];
    var acc' := acc[p := Transaction(p, Charge(log, points, i), now + |touched|)];
    WalkStep(log, points, i);
    assert TouchOrder(log[..i + 1]) == touched' by {
      assert log[..i + 1] == log[..i] + [log[i]];
      TouchOrderSnoc(log[..i], log[i]);
    }
    assert Share(log, points, i, p) == 0 by {
      PayerTotalAbsent(log[..i], p);
    }
    forall j | 0 <= j < |touched'|
      ensures touched'[j] in acc' && acc'[touched'[j]] == Transaction(touched'[j], Share(log, points, i + 1, touched'[j]), now + j)
    {
      ShareStep(log, points, i, touched'[j]);
      if j < |touched| {
        assert touched'[j] == touched[j] != p;
      }
    }
  }

  /**
   The settlements a spend appended, in whatever order, are a permutation of
   Settlements: the accumulated map holds one entry per touched payer with its
   share and its clock reading, and each entry was appended once.
   */
  lemma AppendedAreSettlements(log: seq<Transaction>, points: int, now: int,
                               acc: map<string, Transaction>, touched: seq<string>,
                               appended: seq<Transaction>)
    requires Accumulated(log, points, now, ScanEnd(log, points), touched, acc)
    requires forall p :: p in acc ==> p in touched
    requires Distinct(appended)
    requires forall j :: 0 <= j < |appended| ==> appended[j].payer in acc && appended[j] == acc[appended[j].payer]
    requires forall p :: p in acc ==> acc[p] in appended
    ensures multiset(appended) == multiset(Settlements(log, points, now))
  {
    var expected := Settlements(log, points, now);
    var k := ScanEnd(log, points);
    assert expected == SettlementsFor(touched, log, points, k, now);
    assert Distinct(expected);
    forall j | 0 <= j < |appended| ensures appended[j] in expected {
      assert appended[j].payer in touched;
      var m :| 0 <= m < |touched| && touched[m] == appended[j].payer;
      assert expected[m] == appended[j];
    }
    forall m | 0 <= m < |expected| ensures expected[m] in appended {
      assert expected[m] == acc[touched[m]];
    }
    SameElementsPermutation(appended, expected);
  }

  /**
   The settlements a spend appended, in whatever order, come back in time
   order as exactly Settlements.
   */
  lemma SettledInTimeOrder(log: seq<Transaction>, points: int, now: int,
                           acc: map<string, Transaction>, touched: seq<string>,
                           appended: seq<Transaction>)
    requires Accumulated(log, points, now, ScanEnd(log, points), touched, acc)
    requires forall p :: p in acc ==> p in touched
    requires Distinct(appended)
    requires forall j :: 0 <= j < |appended| ==> appended[j].payer in acc && appended[j] == acc[appended[j].payer]
    requires forall p :: p in acc ==> acc[p] in appended
    ensures SortBy(appended, Before) == Settlements(log, points, now)
  {
    var expected := Settlements(log, points, now);
    AppendedAreSettlements(log, points, now, acc, touched, appended);
    BeforeIsStrictOrder();
    SortBySorted(appended, Before);
    SortedUnique(expected, SortBy(appended, Before), Before);
  }
}
