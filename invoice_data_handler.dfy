/**
 * The receipt-to-ledger reconciler (`InvoiceDataHandler`): a find-or-create
 * on the `income_sources` table keyed by name, then one insert into the
 * `income` table. The two tables are kept in memory; each of the three
 * database calls may fail, and a failure is given as its error message.
 */
module InvoiceDataHandler {
  import opened Wrappers
  import opened JsNumbers
  import opened JsValues
  import opened InvoiceForm

  /** A row of `income_sources`. */
  datatype Source = Source(id: nat, name: Js, description: string)

  /** A row of `income`. */
  datatype IncomeRow = IncomeRow(
    id: nat, source_id: nat, amount: Stored, description: string,
    is_recurring: bool, frequency: string, income_date: Js)

  /** The two tables and the next id each one hands out. */
  datatype Db = Db(sources: seq<Source>, income: seq<IncomeRow>, nextSourceId: nat, nextIncomeId: nat)

  /**
   * Well-formed tables: ids grow along each table and stay below the next
   * id, and every income row points at an existing source.
   */
  predicate Valid(db: Db) {
    && (forall i, j :: 0 <= i < j < |db.sources| ==> db.sources[i].id < db.sources[j].id)
    && (forall i :: 0 <= i < |db.sources| ==> db.sources[i].id < db.nextSourceId)
    && (forall i, j :: 0 <= i < j < |db.income| ==> db.income[i].id < db.income[j].id)
    && (forall i :: 0 <= i < |db.income| ==> db.income[i].id < db.nextIncomeId)
    && (forall r :: r in db.income ==> exists s :: s in db.sources && s.id == r.source_id)
  }

  /** The error message of each database call, None when the call succeeds. */
  datatype Faults = Faults(lookup: Option<string>, createSource: Option<string>, insertIncome: Option<string>)

  const NoFaults := Faults(None, None, None)

  /** What the parent component hears: `onSuccess` with the inserted rows, or `onError`. */
  datatype Notice = OnSuccess(rows: seq<IncomeRow>) | OnError(message: string)

  /** The tables after a run, and the notice sent. */
  datatype Outcome = Outcome(db: Db, notice: Notice)

  /**
   * The rows a `.eq('name', name)` filter selects: every source whose name
   * equals `name`, as often as it occurs in the table, and no other.
   */
  function Named(sources: seq<Source>, name: Js): (r: seq<Source>)
    ensures |r| <= |sources|
    ensures forall s :: s in r <==> s in sources && s.name == name
    ensures forall s :: multiset(r)[s] == if s.name == name then multiset(sources)[s] else 0
  {
    if sources == [] then []
    else
      var last := sources[|sources| - 1];
      var init := sources[..|sources| - 1];
      assert sources == init + [last];
      assert multiset(sources) == multiset(init) + multiset{last};
      Named(init, name) + (if last.name == name then [last] else [])
  }

  /** Adding a source adds it to the matches exactly when its name matches. */
  lemma NamedAppend(sources: seq<Source>, s: Source, name: Js)
    ensures Named(sources + [s], name) == Named(sources, name) + (if s.name == name then [s] else [])
  {
    assert (sources + [s])[..|sources|] == sources;
  }

  /**
   * `.select('id').eq('name', name).single()` folded with the test
   * `sourceError || !sourceData`: the id of the one source with that name,
   * or None when there is none, when there are several, or when the call
   * fails.
   */
  function SingleId(sources: seq<Source>, name: Js, fault: Option<string>): (r: Option<nat>)
    ensures r.Some? <==> fault.None? && |Named(sources, name)| == 1
    ensures r.Some? ==> exists s :: s in sources && s.name == name && s.id == r.value
  {
    var matches := Named(sources, name);
    if fault.None? && |matches| == 1 then
      assert matches[0] in matches;
      Some(matches[0].id)
    else None
  }

  /** "Income from <company>". */
  function SourceDescription(company: Js): string {
    "Income from " + ToJsString(company)
  }

  /** The income row inserted for an invoice: recurrence is always dropped. */
  function IncomeFor(id: nat, sourceId: nat, inv: FinalInvoice): IncomeRow {
    IncomeRow(
      id := id,
      source_id := sourceId,
      amount := Store(inv.total),
      description := InvoiceDescription(ToJsString(inv.invoice_number), ToJsString(inv.company), ToJsString(inv.customer)),
      is_recurring := false,
      frequency := OneTime,
      income_date := inv.date)
  }

  /** The tables with a source appended under the next source id. */
  function WithSource(db: Db, name: Js, description: string): (r: Db)
    ensures r.sources == db.sources + [Source(db.nextSourceId, name, description)]
    ensures r.income == db.income && r.nextIncomeId == db.nextIncomeId
    ensures r.nextSourceId == db.nextSourceId + 1
  {
    db.(sources := db.sources + [Source(db.nextSourceId, name, description)], nextSourceId := db.nextSourceId + 1)
  }

  /** The source id an invoice is filed under, and the tables after finding or creating it. */
  datatype Resolved = Resolved(db: Db, sourceId: nat)

  /** Lines 17-42: reuse the single matching source, or create one. */
  function ResolveSource(db: Db, company: Js, faults: Faults): Result<Resolved, string> {
    match SingleId(db.sources, company, faults.lookup)
    case Some(id) => Success(Resolved(db, id))
    case None =>
      match faults.createSource
      case Some(m) => Failure(m)
      case None => Success(Resolved(WithSource(db, company, SourceDescription(company)), db.nextSourceId))
  }

  /** One whole run of `processInvoiceToSupabase` on the tables. */
  function Reconcile(db: Db, inv: FinalInvoice, faults: Faults): Outcome {
    match ResolveSource(db, inv.company, faults)
    case Failure(m) => Outcome(db, OnError(m))
    case Success(res) =>
      match faults.insertIncome
      case Some(m) => Outcome(res.db, OnError(m))
      case None =>
        var row := IncomeFor(res.db.nextIncomeId, res.sourceId, inv);
        Outcome(res.db.(income := res.db.income + [row], nextIncomeId := res.db.nextIncomeId + 1), OnSuccess([row]))
  }

  /** A company with exactly one source, looked up without failure, reuses that source and leaves the sources table as it was. */
  lemma ReusesSingleSource(db: Db, inv: FinalInvoice, faults: Faults)
    requires faults.lookup.None? && |Named(db.sources, inv.company)| == 1
    ensures var r := Reconcile(db, inv, faults);
      && r.db.sources == db.sources && r.db.nextSourceId == db.nextSourceId
      && (r.notice.OnSuccess? ==> r.notice.rows[0].source_id == Named(db.sources, inv.company)[0].id)
  {
  }

  /**
   * When the lookup yields no single row (none, several, or a failed call),
   * one source named after the company is created under the next id, or the
   * run stops with the creation error and the tables untouched.
   */
  lemma CreatesSourceWhenNotSingle(db: Db, inv: FinalInvoice, faults: Faults)
    requires faults.lookup.Some? || |Named(db.sources, inv.company)| != 1
    ensures var r := Reconcile(db, inv, faults);
      && (faults.createSource.None? ==>
            && r.db.sources == db.sources + [Source(db.nextSourceId, inv.company, "Income from " + ToJsString(inv.company))]
            && (r.notice.OnSuccess? ==> r.notice.rows[0].source_id == db.nextSourceId))
      && (faults.createSource.Some? ==> r == Outcome(db, OnError(faults.createSource.value)))
  {
  }

  /**
   * A run succeeds exactly when the source is resolved and the income
   * insert succeeds; it then appends exactly one row, built from the
   * invoice, with no recurrence, whatever the invoice says, and reports
   * that row. Otherwise the income table is untouched.
   */
  lemma AppendsOneIncomeRow(db: Db, inv: FinalInvoice, faults: Faults)
    ensures var r := Reconcile(db, inv, faults);
      && (r.notice.OnSuccess? <==> ResolveSource(db, inv.company, faults).Success? && faults.insertIncome.None?)
      && (r.notice.OnError? ==> r.db.income == db.income && r.db.nextIncomeId == db.nextIncomeId)
      && (r.notice.OnSuccess? ==>
            && |r.notice.rows| == 1
            && r.db.income == db.income + r.notice.rows
            && var row := r.notice.rows[0];
            && row.id == db.nextIncomeId
            && row.amount == Store(inv.total) && row.income_date == inv.date
            && !row.is_recurring && row.frequency == "one-time"
            && row.description == "Invoice #" + ToJsString(inv.invoice_number) + " from " + ToJsString(inv.company)
                                   + " - Customer: " + ToJsString(inv.customer))
  {
  }

  /** A failed income insert still keeps a source created earlier in the run. */
  lemma IncomeFailureKeepsNewSource(db: Db, inv: FinalInvoice, msg: string)
    requires |Named(db.sources, inv.company)| == 0
    ensures var r := Reconcile(db, inv, Faults(None, None, Some(msg)));
      && r.notice == OnError(msg)
      && |r.db.sources| == |db.sources| + 1 && r.db.income == db.income
  {
  }

  /** Every successful run files its row under a source named after the invoice's company. */
  lemma RowPointsAtCompanySource(db: Db, inv: FinalInvoice, faults: Faults)
    requires Reconcile(db, inv, faults).notice.OnSuccess?
    ensures var r := Reconcile(db, inv, faults);
      exists s :: s in r.db.sources && s.name == inv.company && s.id == r.notice.rows[0].source_id
  {
    var res := ResolveSource(db, inv.company, faults).value;
    var found := SingleId(db.sources, inv.company, faults.lookup);
    if found.None? {
      var s := Source(db.nextSourceId, inv.company, SourceDescription(inv.company));
      assert res.db.sources[|db.sources|] == s;
    }
  }

  /** Whether some source has id `id`. */
  predicate HasSource(db: Db, id: nat) {
    exists s :: s in db.sources && s.id == id
  }

  /** Appending a source under the next id keeps the tables well formed. */
  lemma WithSourceKeepsValid(db: Db, name: Js, description: string)
    requires Valid(db)
    ensures Valid(WithSource(db, name, description))
    ensures HasSource(WithSource(db, name, description), db.nextSourceId)
  {
    var after := WithSource(db, name, description);
    forall r | r in after.income
      ensures exists t :: t in after.sources && t.id == r.source_id
    {
      var t :| t in db.sources && t.id == r.source_id;
      assert t in after.sources;
    }
    assert after.sources[|db.sources|].id == db.nextSourceId;
  }

  /** Finding or creating the source keeps the tables well formed and yields the id of an existing source. */
  lemma ResolveKeepsValid(db: Db, company: Js, faults: Faults)
    requires Valid(db) && ResolveSource(db, company, faults).Success?
    ensures var res := ResolveSource(db, company, faults).value;
      Valid(res.db) && HasSource(res.db, res.sourceId)
  {
    if SingleId(db.sources, company, faults.lookup).None? {
      WithSourceKeepsValid(db, company, SourceDescription(company));
    }
  }

  /** Appending an income row under the next id, pointing at an existing source, keeps the tables well formed. */
  lemma AppendIncomeKeepsValid(db: Db, row: IncomeRow)
    requires Valid(db) && row.id == db.nextIncomeId && HasSource(db, row.source_id)
    ensures Valid(db.(income := db.income + [row], nextIncomeId := db.nextIncomeId + 1))
  {
    var after := db.(income := db.income + [row], nextIncomeId := db.nextIncomeId + 1);
    forall r | r in after.income
      ensures exists t :: t in after.sources && t.id == r.source_id
    {
      if r != row {
        assert r in db.income;
      }
    }
  }

  /** Every run keeps the tables well formed, whatever fails. */
  lemma ReconcileKeepsValid(db: Db, inv: FinalInvoice, faults: Faults)
    requires Valid(db)
    ensures Valid(Reconcile(db, inv, faults).db)
  {
    var resolved := ResolveSource(db, inv.company, faults);
    if resolved.Success? {
      var res := resolved.value;
      ResolveKeepsValid(db, inv.company, faults);
      if faults.insertIncome.None? {
        AppendIncomeKeepsValid(res.db, IncomeFor(res.db.nextIncomeId, res.sourceId, inv));
      }
    }
  }

  /**
   * The lookup is by name only: two fault-free runs for the same company,
   * starting from at most one source of that name, file both rows under
   * one source, and that company then has exactly one source.
   */
  lemma {:induction false} SameCompanySharesSource(db: Db, first: FinalInvoice, second: FinalInvoice)
    requires first.company == second.company
    requires |Named(db.sources, first.company)| <= 1
    ensures var r1 := Reconcile(db, first, NoFaults);
      var r2 := Reconcile(r1.db, second, NoFaults);
      && r1.notice.OnSuccess? && r2.notice.OnSuccess?
      && r1.notice.rows[0].source_id == r2.notice.rows[0].source_id
      && |Named(r2.db.sources, first.company)| == 1
      && |r2.db.income| == |db.income| + 2
  {
    var c := first.company;
    var r1 := Reconcile(db, first, NoFaults);
    if |Named(db.sources, c)| == 0 {
      var s := Source(db.nextSourceId, c, SourceDescription(c));
      assert r1.db.sources == db.sources + [s];
      NamedAppend(db.sources, s, c);
      assert Named(r1.db.sources, c) == [s];
    }
    assert |Named(r1.db.sources, c)| == 1;
  }

  /** `ReconcileKeepsValid` for tables not known to be well formed. */
  lemma ReconcileKeepsValidIf(db: Db, inv: FinalInvoice, faults: Faults)
    ensures Valid(db) ==> Valid(Reconcile(db, inv, faults).db)
  {
    if Valid(db) {
      ReconcileKeepsValid(db, inv, faults);
    }
  }

  /** The two tables as the handler writes them, one insert at a time. */
  class Tables {
    var sources: seq<Source>
    var income: seq<IncomeRow>
    var nextSourceId: nat
    var nextIncomeId: nat

    function Contents(): Db
      reads this
    {
      Db(sources, income, nextSourceId, nextIncomeId)
    }

    /** Empty tables whose ids start at 1, as a serial column does. */
    constructor ()
      ensures Contents() == Db([], [], 1, 1) && Valid(Contents())
    {
      sources, income, nextSourceId, nextIncomeId := [], [], 1, 1;
    }

    /** `.from('income_sources').insert([...]).select().single()`: the new row's id. */
    method InsertSource(name: Js, description: string) returns (id: nat)
      modifies this
      ensures id == old(nextSourceId)
      ensures Contents() == WithSource(old(Contents()), name, description)
    {
      id := nextSourceId;
      sources := sources + [Source(id, name, description)];
      nextSourceId := nextSourceId + 1;
    }

    /** `.from('income').insert([...]).select()`: the inserted row, with its new id. */
    method InsertIncome(sourceId: nat, inv: FinalInvoice) returns (row: IncomeRow)
      modifies this
      ensures row == IncomeFor(old(nextIncomeId), sourceId, inv)
      ensures Contents() == old(Contents()).(income := old(income) + [row], nextIncomeId := old(nextIncomeId) + 1)
    {
      row := IncomeFor(nextIncomeId, sourceId, inv);
      income := income + [row];
      nextIncomeId := nextIncomeId + 1;
    }
  }

  /** The handler component: the tables it writes to and its `processing`/`error` state. */
  class InvoiceDataHandler {
    const store: Tables
    var processing: bool
    var error: Option<string>

    constructor (store: Tables)
      ensures this.store == store && !processing && error == None
    {
      this.store := store;
      processing := false;
      error := None;
    }

    /**
     * `processInvoiceToSupabase`: find or create the source, insert the
     * income row, and tell the parent. The tables end up as `Reconcile`
     * says; on every exit `processing` is false, and `error` holds the
     * message exactly when `onError` is called.
     */
    method ProcessInvoiceToSupabase(invoiceData: FinalInvoice, faults: Faults) returns (notice: Notice)
      modifies this, store
      ensures Outcome(store.Contents(), notice) == Reconcile(old(store.Contents()), invoiceData, faults)
      ensures !processing
      ensures error == if notice.OnError? then Some(notice.message) else None
      ensures Valid(old(store.Contents())) ==> Valid(store.Contents())
    {
      ghost var before := store.Contents();
      ReconcileKeepsValidIf(before, invoiceData, faults);
      processing := true;
      error := None;
      var sourceId: nat;
      var found := SingleId(store.sources, invoiceData.company, faults.lookup);
      if found.None? {
        if faults.createSource.Some? {
          notice := OnError(faults.createSource.value);
          error := Some(notice.message);
          processing := false;
          return;
        }
        sourceId := store.InsertSource(invoiceData.company, SourceDescription(invoiceData.company));
      } else {
        sourceId := found.value;
      }
      if faults.insertIncome.Some? {
        notice := OnError(faults.insertIncome.value);
        error := Some(notice.message);
        processing := false;
        return;
      }
      var row := store.InsertIncome(sourceId, invoiceData);
      notice := OnSuccess([row]);
      processing := false;
    }
  }
}
