/** The event handlers of the tracker, each taking the state visible in
    the page to the next: the ledger, the list the renderer shows, the
    summary figures and chart data, and what storage holds. The user's
    confirmation, the selected filter, and the ids the clock supplies
    arrive as parameters. */
module Controller {
  import opened Wrappers
  import opened Transactions
  import opened LedgerStore
  import opened SummaryEngine
  import opened Persistence

  datatype Screen = Screen(
    ledger: Ledger,
    shown: Ledger,
    summary: Summary,
    stored: Option<seq<StoredRecord>>)

  /** The summary figures are those of the current ledger. */
  predicate InSync(s: Screen)
  {
    s.summary == Summarize(s.ledger)
  }

  /** Storage holds exactly the current ledger. */
  predicate Persisted(s: Screen)
  {
    s.stored == Some(Save(s.ledger))
  }

  /** `renderTransactions(filter)` followed by `calculateSummary()`. */
  function Redraw(ledger: Ledger, filter: string, stored: Option<seq<StoredRecord>>): Screen
  {
    Screen(ledger, FilterByCategory(ledger, filter), Summarize(ledger), stored)
  }

  /** Page load: the stored records are read and migrated, the whole
      ledger is listed, and nothing is written back, so storage keeps
      any legacy record without its id. */
  function OnLoad(saved: Option<seq<StoredRecord>>, newId: nat -> int): (r: Screen)
    ensures InSync(r)
    ensures r.shown == r.ledger
    ensures r.stored == saved
    ensures saved.None? ==> r.ledger == [] && r.summary == Summary(0.0, 0.0, 0.0, map[])
    ensures r.ledger == Load(saved, newId)
  {
    Redraw(Load(saved, newId), [], saved)
  }

  /** Form submission. A rejected form changes nothing on the page. An
      accepted one appends the record, lists the whole ledger (the
      renderer is called without the selected filter), recomputes the
      summary and writes storage. */
  function OnSubmit(s: Screen, f: Form, id: int): (r: Screen)
    ensures Rejects(f) ==> r == s
    ensures !Rejects(f) ==> InSync(r) && Persisted(r) && r.shown == r.ledger
    ensures !Rejects(f) ==> r.ledger == Submit(s.ledger, f, id)
  {
    if Rejects(f) then s
    else
      var ledger := Submit(s.ledger, f, id);
      Redraw(ledger, [], Some(Save(ledger)))
  }

  /** A click on a delete button carrying `id`. Nothing happens unless a
      record carries that id and the user confirms; then the first such
      record goes, the list is redrawn under the selected filter, the
      summary recomputed and storage written. */
  function OnDelete(s: Screen, id: int, confirmed: bool, filter: string): (r: Screen)
    ensures (!confirmed || forall t :: t in s.ledger ==> t.id != id) ==> r == s
    ensures confirmed && (exists t :: t in s.ledger && t.id == id) ==>
      && InSync(r) && Persisted(r)
      && |r.ledger| == |s.ledger| - 1
      && IsSubsequence(r.ledger, s.ledger)
      && r.shown == FilterByCategory(r.ledger, filter)
    ensures confirmed ==>
      forall i :: 0 <= i < |s.ledger| && s.ledger[i].id == id
                  && (forall j :: 0 <= j < i ==> s.ledger[j].id != id)
        ==> r.ledger == s.ledger[..i] + s.ledger[i + 1..]
    ensures r.ledger == Delete(s.ledger, id, confirmed)
  {
    if confirmed && FindIndex(s.ledger, id).Some? then
      var ledger := Delete(s.ledger, id, true);
      Redraw(ledger, filter, Some(Save(ledger)))
    else s
  }

  /** A window resize redraws the list under the selected filter and
      leaves ledger, summary and storage alone. */
  function OnResize(s: Screen, filter: string): (r: Screen)
    ensures r.ledger == s.ledger && r.summary == s.summary && r.stored == s.stored
    ensures r.shown == FilterByCategory(s.ledger, filter)
  {
    s.(shown := FilterByCategory(s.ledger, filter))
  }

  /** Every handler keeps the summary figures equal to those of the
      ledger: the page never shows stale totals. */
  lemma HandlersKeepSync(s: Screen, f: Form, id: int, confirmed: bool, filter: string)
    requires InSync(s)
    ensures InSync(OnSubmit(s, f, id))
    ensures InSync(OnDelete(s, id, confirmed, filter))
    ensures InSync(OnResize(s, filter))
  {
  }

  /** An accepted submission raises exactly one total by the amount
      entered, the one its type label names, and the balance with it. */
  lemma SubmitMovesTotals(s: Screen, f: Form, id: int)
    requires InSync(s) && !Rejects(f)
    ensures OnSubmit(s, f, id).summary.income
         == s.summary.income + (if f.kind == Income then f.amount.value else 0.0)
    ensures OnSubmit(s, f, id).summary.expenses
         == s.summary.expenses + (if f.kind == Expense then f.amount.value else 0.0)
  {
    var t := Transaction(id, f.date, f.description, f.category, f.amount.value, f.kind);
    assert Submit(s.ledger, f, id) == s.ledger + [t];
    SummaryAfterAppend(s.ledger, t);
  }

  /** A confirmed deletion takes the first matching record's amount back
      out of the total its type label names. */
  lemma DeleteMovesTotals(s: Screen, id: int, filter: string, i: nat)
    requires InSync(s)
    requires i < |s.ledger| && s.ledger[i].id == id
    requires forall j :: 0 <= j < i ==> s.ledger[j].id != id
    ensures OnDelete(s, id, true, filter).summary.income
         == s.summary.income - (if s.ledger[i].kind == Income then s.ledger[i].amount else 0.0)
    ensures OnDelete(s, id, true, filter).summary.expenses
         == s.summary.expenses - (if s.ledger[i].kind == Expense then s.ledger[i].amount else 0.0)
  {
    assert s.ledger[i] in s.ledger;
    SummaryAfterSplice(s.ledger, i);
  }
}
