/** The ledger operations behind the tracker's event handlers: the
    validated append of the submit handler, the category filter of the
    renderer, and the find-and-splice of the delete handler. */
module LedgerStore {
  import opened Wrappers
  import opened Transactions

  /** The five values the submit handler reads from the form. `amount`
      is the result of `parseFloat` on the amount field; `None` stands
      for NaN, the result of a field that does not start with a number. */
  datatype Form = Form(
    date: string,
    description: string,
    category: string,
    amount: Option<real>,
    kind: string)

  /** The submit handler's guard: a field is missing when its value is
      falsy. For the strings that is the empty string; for the parsed
      amount it is NaN or zero. A negative amount passes. */
  predicate Rejects(f: Form)
  {
    || f.date == []
    || f.description == []
    || f.category == []
    || f.amount == None
    || f.amount == Some(0.0)
    || f.kind == []
  }

  /** The submit handler: a form the guard rejects leaves the ledger as
      it was; any other form appends one record built from its fields
      under the id the clock supplied. */
  function Submit(ledger: Ledger, f: Form, id: int): (r: Ledger)
    ensures Rejects(f) ==> r == ledger
    ensures !Rejects(f) <==> |r| == |ledger| + 1
    ensures !Rejects(f) ==>
      && r[..|ledger|] == ledger
      && r[|ledger|].id == id
      && r[|ledger|].date == f.date
      && r[|ledger|].description == f.description
      && r[|ledger|].category == f.category
      && Some(r[|ledger|].amount) == f.amount
      && r[|ledger|].kind == f.kind
  {
    if Rejects(f) then ledger
    else ledger + [Transaction(id, f.date, f.description, f.category, f.amount.value, f.kind)]
  }

  /** The renderer's filter predicate: an empty filter shows everything,
      any other shows the records whose category equals it exactly. */
  function Shows(filter: string): Transaction -> bool
  {
    (t: Transaction) => filter == [] || t.category == filter
  }

  /** The records the renderer lists for the selected category. */
  function FilterByCategory(ledger: Ledger, filter: string): (r: Ledger)
    ensures filter == [] ==> r == ledger
    ensures forall t :: t in r ==> filter == [] || t.category == filter
    ensures forall t: Transaction :: (filter == [] || t.category == filter) ==> multiset(r)[t] == multiset(ledger)[t]
    ensures forall t: Transaction :: t.category != filter && filter != [] ==> multiset(r)[t] == 0
    ensures IsSubsequence(r, ledger)
  {
    var r := Keep(ledger, Shows(filter));
    assert filter == [] ==> r == ledger by {
      if filter == [] {
        KeepAll(ledger, Shows(filter));
      }
    }
    r
  }

  /** Keeping with a predicate that accepts every record is the identity. */
  lemma {:induction false} KeepAll(s: Ledger, p: Transaction -> bool)
    requires forall t :: t in s ==> p(t)
    ensures Keep(s, p) == s
    decreases |s|
  {
    if s != [] {
      KeepAll(s[1..], p);
      assert [s[0]] + s[1..] == s;
    }
  }

  /** `findIndex(t => t.id === id)`: the position of the first record
      carrying `id`, or `None` where JavaScript answers -1. */
  function FindIndex(ledger: Ledger, id: int): (r: Option<nat>)
    ensures r.None? <==> forall i :: 0 <= i < |ledger| ==> ledger[i].id != id
    ensures r.Some? ==>
      && r.value < |ledger|
      && ledger[r.value].id == id
      && forall j :: 0 <= j < r.value ==> ledger[j].id != id
    decreases |ledger|
  {
    if ledger == [] then None
    else if ledger[0].id == id then Some(0)
    else
      match FindIndex(ledger[1..], id)
      case None => None
      case Some(i) => Some(i + 1)
  }

  /** The delete handler: when a record carries `id` and the user
      confirms, the first such record is spliced out; otherwise the
      ledger is left as it was. */
  function Delete(ledger: Ledger, id: int, confirmed: bool): (r: Ledger)
    ensures (!confirmed || forall t :: t in ledger ==> t.id != id) ==> r == ledger
    ensures |r| == |ledger| - 1 <==> confirmed && exists t :: t in ledger && t.id == id
    ensures IsSubsequence(r, ledger)
  {
    match FindIndex(ledger, id)
    case None =>
      SubsequenceRefl(ledger);
      ledger
    case Some(i) =>
      if confirmed then
        SpliceIsSubsequence(ledger, i);
        ledger[..i] + ledger[i + 1..]
      else
        SubsequenceRefl(ledger);
        ledger
  }

  lemma {:induction false} SubsequenceRefl(s: Ledger)
    ensures IsSubsequence(s, s)
    decreases |s|
  {
    if s != [] {
      SubsequenceRefl(s[1..]);
    }
  }

  /** Removing the entry at one position leaves a subsequence. */
  lemma {:induction false} SpliceIsSubsequence(s: Ledger, i: nat)
    requires i < |s|
    ensures IsSubsequence(s[..i] + s[i + 1..], s)
    decreases i
  {
    var r := s[..i] + s[i + 1..];
    if i == 0 {
      assert r == s[1..];
      SubsequenceRefl(s[1..]);
    } else {
      var s' := s[1..];
      assert r[0] == s[0];
      assert r[1..] == s'[..i - 1] + s'[i..];
      SpliceIsSubsequence(s', i - 1);
    }
  }

  /** The record deleted is the first one carrying `id`: whatever position
      `i` satisfies that description is the one spliced out, and every
      other record, later duplicates of `id` included, stays in order. */
  lemma DeleteRemovesFirst(ledger: Ledger, id: int, i: nat)
    requires i < |ledger| && ledger[i].id == id
    requires forall j :: 0 <= j < i ==> ledger[j].id != id
    ensures Delete(ledger, id, true) == ledger[..i] + ledger[i + 1..]
  {
  }

  /** Submitting a valid form under an id no record carries, then
      confirming the deletion of that id, gives back the ledger. */
  lemma DeleteUndoesSubmit(ledger: Ledger, f: Form, id: int)
    requires !Rejects(f)
    requires forall t :: t in ledger ==> t.id != id
    ensures Delete(Submit(ledger, f, id), id, true) == ledger
  {
  }
}
