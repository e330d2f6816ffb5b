/**
 The in-memory database: one slice of transactions, appended to and sorted in
 place. The slice is a `seq` field that the methods reassign; GetTransactions
 hands out the stored slice after sorting it, so a read reorders the log.
 */
module Db {
  import opened Model
  import opened Sorting
  import opened Ledger

  class InMemoryDB {
    var transactions: seq<Transaction>

    /** NewInMemoryDB: an empty log. */
    constructor ()
      ensures transactions == []
    {
      transactions := [];
    }

    /**
     The log in ascending time order. The stored log is sorted in place and is
     the returned sequence afterwards; ties come out in no promised order.
     */
    method GetTransactions() returns (result: seq<Transaction>)
      modifies this
      ensures SortedBy(result, Before)
      ensures multiset(result) == multiset(old(transactions))
      ensures transactions == result
    {
      BeforeIsStrictOrder();
      SortBySorted(transactions, Before);
      transactions := SortBy(transactions, Before);
      result := transactions;
    }

    /** Appends `t` to the log; never fails. */
    method AddTransaction(t: Transaction)
      modifies this
      ensures transactions == old(transactions) + [t]
    {
      transactions := transactions + [t];
    }

    /** getAccountMap: each payer of the log mapped to its account, in stored order. */
    method AccountMap() returns (accounts: map<string, Account>)
      ensures accounts.Keys == Payers(transactions)
      ensures forall p :: p in accounts ==> accounts[p] == Account(p, PayerTotal(transactions, p))
    {
      accounts := map[];
      for i := 0 to |transactions|
        invariant accounts.Keys == Payers(transactions[..i])
        invariant forall p :: p in accounts ==> accounts[p] == Account(p, PayerTotal(transactions[..i], p))
      {
        var tran := transactions[i];
        assert transactions[..i + 1] == transactions[..i] + [tran];
        PayersSnoc(transactions[..i], tran);
        if tran.payer in accounts {
          var account := accounts[tran.payer];
          account := account.(points := account.points + tran.points);
          accounts := accounts[tran.payer := account];
        } else {
          PayerTotalAbsent(transactions[..i], tran.payer);
          accounts := accounts[tran.payer := Account(tran.payer, tran.points)];
        }
      }
      assert transactions[..|transactions|] == transactions;
    }

    /**
     One account per payer, zero sums included, strictly ascending by payer
     name: the log's balances.
     */
    method GetAccounts() returns (result: seq<Account>)
      ensures result == Balances(transactions)
    {
      var accountMap := AccountMap();
      var pending := accountMap.Keys;
      var list: seq<Account> := [];
      while pending != {}
        invariant pending <= accountMap.Keys
        invariant forall i :: 0 <= i < |list| ==> list[i].payer in accountMap - pending && list[i] == accountMap[list[i].payer]
        invariant forall p :: p in accountMap && p !in pending ==> accountMap[p] in list
        invariant Distinct(list)
        decreases pending
      {
        var p :| p in pending;
        list := list + [accountMap[p]];
        pending := pending - {p};
      }
      result := SortBy(list, PayerLess);
      SortedAccountsAreBalances(transactions, list);
    }

    /** The account of `payer`; `found` tells an unknown payer from one with a zero sum. */
    method GetAccount(payer: string) returns (account: Account, found: bool)
      ensures found <==> payer in Payers(transactions)
      ensures found ==> account == Account(payer, PayerTotal(transactions, payer))
      ensures !found ==> account == Account("", 0)
    {
      var accountMap := AccountMap();
      found := payer in accountMap;
      account := if found then accountMap[payer] else Account("", 0);
    }
  }
}
