/**
 * The invoice pipeline end to end, from the extraction reply through the
 * review form to the income row: what the ledger records is decided by the
 * form, and the form validates nothing.
 */
module InvoicePipeline {
  import opened JsNumbers
  import opened JsValues
  import opened InvoiceForm
  import opened InvoiceDataHandler

  /**
   * The ledger description is rebuilt from the three fields with `String`,
   * while the form built its initial description with `|| ''`; the two
   * agree whenever the user left those three fields alone, even if the
   * description field itself was edited.
   */
  lemma LedgerDescriptionMatchesInitial(x: Extracted, today: string, f: FormData, id: nat, sourceId: nat)
    requires InitialForm(x, today).Success?
    requires var f0 := InitialForm(x, today).value;
      f.invoice_number == f0.invoice_number && f.company == f0.company && f.customer == f0.customer
    ensures Str(IncomeFor(id, sourceId, Finalize(f)).description) == InitialForm(x, today).value.description
  {
    var f0 := InitialForm(x, today).value;
    assert f0.invoice_number == Or(x.invoice_number, Str(""));
    assert f0.company == Or(x.company, Str(""));
    assert f0.customer == Or(x.customer, Str(""));
  }

  /**
   * No amount check sits between the form and the ledger: whatever whole
   * number is typed into the total input, negative ones included, becomes
   * the recorded amount.
   */
  lemma TypedTotalIsRecorded(f: FormData, k: int, id: nat, sourceId: nat)
    ensures var typed := Changed(f, Total, ToJsString(Number(Finite(k as real))), "number");
      IncomeFor(id, sourceId, Finalize(typed)).amount == StoredNumber(k as real)
  {
    ParseFloatOfWholeNumberText(k);
  }

  /**
   * A total input cleared or filled with text that is not a number is
   * submitted as NaN and recorded as a null amount.
   */
  lemma UnreadableTotalIsRecordedAsNull(f: FormData, text: string, id: nat, sourceId: nat)
    requires ParseFloat(text).NaN?
    ensures IncomeFor(id, sourceId, Finalize(Changed(f, Total, text, "number"))).amount == StoredNull
  {
  }

  /** No date check either: a cleared date field is recorded as the empty income date. */
  lemma ClearedDateIsRecorded(f: FormData, id: nat, sourceId: nat)
    ensures IncomeFor(id, sourceId, Finalize(Changed(f, Date, "", "date"))).income_date == Str("")
  {
  }
}
