/** The transaction record, the ledger that holds them, and the two list
    primitives the tracker builds everything from: keeping the records a
    predicate accepts (JavaScript's `Array.prototype.filter`) and adding
    up their amounts (a left-to-right `reduce` starting from 0). */
module Transactions {

  /** The two type labels the tracker gives meaning to. Any other label
      is carried along but belongs to neither total. */
  const Income: string := "Income"
  const Expense: string := "Expense"

  /** One ledger entry. `kind` is the entry's `type` field, kept as the
      free string the form delivers. */
  datatype Transaction = Transaction(
    id: int,
    date: string,
    description: string,
    category: string,
    amount: real,
    kind: string)

  /** The in-memory ledger, in insertion order. */
  type Ledger = seq<Transaction>

  /** `a` can be obtained from `b` by deleting entries: same elements,
      same relative order. */
  ghost predicate IsSubsequence(a: Ledger, b: Ledger)
    decreases |b|
  {
    || a == []
    || (&& b != []
        && ((a[0] == b[0] && IsSubsequence(a[1..], b[1..])) || IsSubsequence(a, b[1..])))
  }

  /** The records of `s` that `p` accepts, in their original order. */
  function Keep(s: Ledger, p: Transaction -> bool): (r: Ledger)
    ensures forall t :: t in r ==> p(t)
    ensures forall t :: multiset(r)[t] == if p(t) then multiset(s)[t] else 0
    ensures IsSubsequence(r, s)
    decreases |s|
  {
    if s == [] then []
    else
      assert s == [s[0]] + s[1..];
      var rest := Keep(s[1..], p);
      if p(s[0]) then
        var r := [s[0]] + rest;
        assert r[1..] == rest;
        r
      else
        rest
  }

  /** The predicate "has type label `kind`". */
  function IsKind(kind: string): Transaction -> bool
  {
    (t: Transaction) => t.kind == kind
  }

  /** The predicate "is filed under `category`". */
  function InCategory(category: string): Transaction -> bool
  {
    (t: Transaction) => t.category == category
  }

  /** The predicate "is an expense filed under `category`". */
  function IsExpenseIn(category: string): Transaction -> bool
  {
    (t: Transaction) => t.kind == Expense && t.category == category
  }

  /** Sum of the amounts, accumulated from the first record to the last
      as `reduce((sum, t) => sum + t.amount, 0)` does. */
  function SumAmounts(s: Ledger): real
    decreases |s|
  {
    if s == [] then 0.0 else SumAmounts(s[..|s| - 1]) + s[|s| - 1].amount
  }

  /** Reference definition: the sum of the amounts of the records `p`
      accepts, written directly over the ledger with no filtering step. */
  ghost function AmountWhere(s: Ledger, p: Transaction -> bool): real
    decreases |s|
  {
    if s == [] then 0.0
    else (if p(s[0]) then s[0].amount else 0.0) + AmountWhere(s[1..], p)
  }

  lemma {:induction false} KeepAppend(a: Ledger, b: Ledger, p: Transaction -> bool)
    ensures Keep(a + b, p) == Keep(a, p) + Keep(b, p)
    decreases |a|
  {
    if a == [] {
      assert a + b == b;
    } else {
      assert (a + b)[1..] == a[1..] + b;
      KeepAppend(a[1..], b, p);
    }
  }

  lemma {:induction false} SumAmountsAppend(a: Ledger, b: Ledger)
    ensures SumAmounts(a + b) == SumAmounts(a) + SumAmounts(b)
    decreases |b|
  {
    if b == [] {
      assert a + b == a;
    } else {
      var b' := b[..|b| - 1];
      assert (a + b)[..|a + b| - 1] == a + b';
      SumAmountsAppend(a, b');
    }
  }

  lemma {:induction false} AmountWhereAppend(a: Ledger, b: Ledger, p: Transaction -> bool)
    ensures AmountWhere(a + b, p) == AmountWhere(a, p) + AmountWhere(b, p)
    decreases |a|
  {
    if a == [] {
      assert a + b == b;
    } else {
      assert (a + b)[1..] == a[1..] + b;
      AmountWhereAppend(a[1..], b, p);
    }
  }

  /** Filtering and then reducing adds up exactly the amounts the
      reference definition names. */
  lemma {:induction false} SumOfKept(s: Ledger, p: Transaction -> bool)
    ensures SumAmounts(Keep(s, p)) == AmountWhere(s, p)
    decreases |s|
  {
    if s != [] {
      var head: Ledger := if p(s[0]) then [s[0]] else [];
      assert Keep(s, p) == head + Keep(s[1..], p);
      SumAmountsAppend(head, Keep(s[1..], p));
      assert SumAmounts(head) == if p(s[0]) then s[0].amount else 0.0 by {
        if p(s[0]) {
          assert head[..0] == [];
        }
      }
      SumOfKept(s[1..], p);
    }
  }

  /** A record added at the end contributes its own amount, or nothing. */
  lemma AmountWhereSnoc(s: Ledger, t: Transaction, p: Transaction -> bool)
    ensures AmountWhere(s + [t], p) == AmountWhere(s, p) + (if p(t) then t.amount else 0.0)
  {
    AmountWhereAppend(s, [t], p);
    assert [t][1..] == [];
  }
}
