/**
 The records of the points ledger: a signed transaction charged to or credited
 by a payer, and a payer's aggregated balance. Timestamps are integers (seconds
 since the Unix epoch); `Before` is the strict "earlier than" of Go's
 time.Time.Before.
 */
module Model {
  import opened Sorting

  datatype Transaction = Transaction(payer: string, points: int, timestamp: int)

  datatype Account = Account(payer: string, points: int)

  /** The one error of the point service: a payer or the account lacks the points. */
  datatype Error = NotEnoughPoints

  datatype Outcome = Success | Failure(error: Error)

  /** The time order both sorts use: `a` is strictly earlier than `b`. */
  predicate Before(a: Transaction, b: Transaction)
  {
    a.timestamp < b.timestamp
  }

  /**
   Go's `<` on strings: byte-wise lexicographic, a proper prefix sorts first.
   Characters are compared by code point, which orders UTF-8 encodings the same
   way as their bytes.
   */
  predicate StringLess(a: string, b: string)
  {
    if a == [] then b != []
    else if b == [] then false
    else if a[0] != b[0] then a[0] < b[0]
    else StringLess(a[1..], b[1..])
  }

  /** The account order of the balance list: by payer name. */
  predicate PayerLess(a: Account, b: Account)
  {
    StringLess(a.payer, b.payer)
  }

  lemma BeforeIsStrictOrder()
    ensures StrictOrder(Before)
  {
  }

  lemma {:induction false} StringLessIrreflexive(a: string)
    ensures !StringLess(a, a)
  {
    if a != [] {
      StringLessIrreflexive(a[1..]);
    }
  }

  lemma {:induction false} StringLessTransitive(a: string, b: string, c: string)
    requires StringLess(a, b) && StringLess(b, c)
    ensures StringLess(a, c)
  {
    if a != [] && b != [] && c != [] && a[0] == b[0] == c[0] {
      StringLessTransitive(a[1..], b[1..], c[1..]);
    }
  }

  /** Two different strings are always ordered one way or the other. */
  lemma {:induction false} StringLessTotal(a: string, b: string)
    requires a != b
    ensures StringLess(a, b) || StringLess(b, a)
  {
    if a != [] && b != [] && a[0] == b[0] {
      assert a == [a[0]] + a[1..] && b == [b[0]] + b[1..];
      StringLessTotal(a[1..], b[1..]);
    }
  }

  lemma PayerLessIsStrictOrder()
    ensures StrictOrder(PayerLess)
  {
    forall a: Account ensures !PayerLess(a, a) {
      StringLessIrreflexive(a.payer);
    }
    forall a: Account, b: Account, c: Account | PayerLess(a, b) && PayerLess(b, c)
      ensures PayerLess(a, c)
    {
      StringLessTransitive(a.payer, b.payer, c.payer);
    }
  }
}
