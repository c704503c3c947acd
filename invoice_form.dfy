/**
 * The invoice review form (`InvoiceFormEditor`): its initial state built
 * from the extraction reply, the three change handlers that update the
 * form record, and the record handed to `onSubmit`.
 */
module InvoiceForm {
  import opened Wrappers
  import opened JsStrings
  import opened JsNumbers
  import opened JsValues

  /** The fields of the form record. */
  datatype Field = Total | Description | IsRecurring | Frequency | Date | InvoiceNumber | Company | Customer

  /** `formData`: each field holds whatever JavaScript value was last stored in it. */
  datatype FormData = FormData(
    total: Js, description: Js, is_recurring: Js, frequency: Js,
    date: Js, invoice_number: Js, company: Js, customer: Js)
  {
    function Get(f: Field): Js {
      match f
      case Total => total
      case Description => description
      case IsRecurring => is_recurring
      case Frequency => frequency
      case Date => date
      case InvoiceNumber => invoice_number
      case Company => company
      case Customer => customer
    }

    /** `{ ...this, [f]: v }`: field `f` holds `v`, every other field is as it was. */
    function Set(f: Field, v: Js): (r: FormData)
      ensures r.Get(f) == v
      ensures forall g :: g != f ==> r.Get(g) == Get(g)
    {
      match f
      case Total => this.(total := v)
      case Description => this.(description := v)
      case IsRecurring => this.(is_recurring := v)
      case Frequency => this.(frequency := v)
      case Date => this.(date := v)
      case InvoiceNumber => this.(invoice_number := v)
      case Company => this.(company := v)
      case Customer => this.(customer := v)
    }
  }

  /**
   * The parsed extraction reply as the form reads it (`extractedData?.x`);
   * a property the reply lacks, or a reply that is itself absent, reads as
   * Undefined.
   */
  datatype Extracted = Extracted(
    total: Js, invoice_number: Js, company: Js, customer: Js,
    is_recurring: Js, frequency: Js, date: Js)

  /** `extractedData` is null or undefined: every optional read yields undefined. */
  const NoExtraction := Extracted(Undefined, Undefined, Undefined, Undefined, Undefined, Undefined, Undefined)

  const OneTime := "one-time"
  const Monthly := "monthly"

  /** The error `Date.prototype.toISOString` throws for a date it cannot read. */
  const InvalidTimeValue := "Invalid time value"

  /** "Invoice #<number> from <company> - Customer: <customer>". */
  function InvoiceDescription(invoiceNumber: string, company: string, customer: string): string {
    "Invoice #" + invoiceNumber + " from " + company + " - Customer: " + customer
  }

  /** A year of the proleptic Gregorian calendar that has a 29 February. */
  predicate LeapYear(year: int) {
    year % 4 == 0 && (year % 100 != 0 || year % 400 == 0)
  }

  /** The number of days of a month (1 to 12) of a year. */
  function DaysInMonth(year: int, month: int): (n: int)
    requires 1 <= month <= 12
    ensures 28 <= n <= 31
    ensures n == 29 <==> month == 2 && LeapYear(year)
  {
    if month == 2 then (if LeapYear(year) then 29 else 28)
    else if month == 4 || month == 6 || month == 9 || month == 11 then 30
    else 31
  }

  /**
   * A calendar date written `YYYY-MM-DD`, the form `toISOString().split('T')[0]`
   * produces: a month from 1 to 12 and a day that exists in that month.
   */
  predicate IsIsoDate(s: string) {
    && |s| == 10 && s[4] == '-' && s[7] == '-'
    && AllDigits(s[..4]) && AllDigits(s[5..7]) && AllDigits(s[8..])
    && 1 <= DigitsValue(s[5..7]) <= 12
    && 1 <= DigitsValue(s[8..]) <= DaysInMonth(DigitsValue(s[..4]), DigitsValue(s[5..7]))
  }

  /**
   * The initial `date`: today's date when the reply has none, the reply's
   * date when it is already a `YYYY-MM-DD` date, and the exception
   * `toISOString` throws otherwise.
   */
  function InitialDate(v: Js, today: string): Result<string, string> {
    if !Truthy(v) then Success(today)
    else if v.Str? && IsIsoDate(v.s) then Success(v.s)
    else Failure(InvalidTimeValue)
  }

  /** The record `useState` starts from; Failure when building it throws. */
  function InitialForm(x: Extracted, today: string): Result<FormData, string> {
    match InitialDate(x.date, today)
    case Failure(e) => Failure(e)
    case Success(d) =>
      Success(FormData(
        total := Or(x.total, Zero),
        description := Str(InvoiceDescription(TextOrEmpty(x.invoice_number), TextOrEmpty(x.company), TextOrEmpty(x.customer))),
        is_recurring := Bool(x.is_recurring == Bool(true)),
        frequency := Or(x.frequency, Str("")),
        date := Str(d),
        invoice_number := Or(x.invoice_number, Str("")),
        company := Or(x.company, Str("")),
        customer := Or(x.customer, Str(""))))
  }

  /** What the initial record holds, field by field. */
  lemma InitialFormFields(x: Extracted, today: string)
    requires InitialForm(x, today).Success?
    ensures var f := InitialForm(x, today).value;
      && (f.is_recurring == Bool(true) <==> x.is_recurring == Bool(true))
      && (f.is_recurring == Bool(false) <==> x.is_recurring != Bool(true))
      && (!Truthy(x.total) ==> f.total == Zero) && (Truthy(x.total) ==> f.total == x.total)
      && (!Truthy(x.invoice_number) ==> f.invoice_number == Str(""))
      && (Truthy(x.invoice_number) ==> f.invoice_number == x.invoice_number)
      && (!Truthy(x.company) ==> f.company == Str(""))
      && (Truthy(x.company) ==> f.company == x.company)
      && (!Truthy(x.customer) ==> f.customer == Str(""))
      && (Truthy(x.customer) ==> f.customer == x.customer)
      && (!Truthy(x.frequency) ==> f.frequency == Str(""))
      && (Truthy(x.frequency) ==> f.frequency == x.frequency)
      && (!Truthy(x.date) ==> f.date == Str(today))
      && (x.date.Str? && IsIsoDate(x.date.s) ==> f.date == x.date)
  {
  }

  /**
   * The initial description names the invoice number, company and customer;
   * a missing part is rendered as the empty string.
   */
  lemma InitialDescription(x: Extracted, today: string)
    requires InitialForm(x, today).Success?
    ensures InitialForm(x, today).value.description
         == Str(InvoiceDescription(TextOrEmpty(x.invoice_number), TextOrEmpty(x.company), TextOrEmpty(x.customer)))
    ensures !Truthy(x.invoice_number) && !Truthy(x.company) && !Truthy(x.customer) ==>
              InitialForm(x, today).value.description == Str(InvoiceDescription("", "", ""))
  {
  }

  /** With nothing extracted the description still carries its fixed words around three empty parts. */
  lemma EmptyDescription(d: string)
    requires d == InvoiceDescription("", "", "")
    ensures d == "Invoice # from  - Customer: "
  {
    var a, b, c := "Invoice #", " from ", " - Customer: ";
    assert a + "" == a;
    assert a + b + "" == a + b;
    assert a + b + c + "" == a + b + c;
  }

  /** Building the initial record throws only for a date that is present and unreadable. */
  lemma InitialFormFailsOnlyOnDate(x: Extracted, today: string)
    ensures InitialForm(x, today).Failure? <==> Truthy(x.date) && !(x.date.Str? && IsIsoDate(x.date.s))
    ensures InitialForm(x, today).Success? ==> InitialForm(x, today).value.date.Str?
  {
  }

  /** The 31st of February is past the end of its month, so the conversion throws. */
  lemma ThirtyFirstOfFebruaryThrows(s: string, today: string)
    requires s == "2023-02-31"
    ensures InitialDate(Str(s), today) == Failure(InvalidTimeValue)
  {
    assert s[5..7] == "02" && s[8..] == "31";
    TwoDigits(s[5..7]);
    TwoDigits(s[8..]);
  }

  /** The 29th of February is kept in a leap year. */
  lemma LeapDayIsKept(s: string, today: string)
    requires s == "2024-02-29"
    ensures InitialDate(Str(s), today) == Success(s)
  {
    assert s[..4] == "2024" && s[5..7] == "02" && s[8..] == "29";
    TwoDigits(s[5..7]);
    TwoDigits(s[8..]);
    YearValue(s[..4]);
    assert LeapYear(2024);
  }

  /** The year "2024", one digit at a time. */
  lemma YearValue(y: string)
    requires y == "2024"
    ensures AllDigits(y) && DigitsValue(y) == 2024
  {
    var y2, y3 := y[..2], y[..3];
    assert y2 == "20" && y3 == "202";
    TwoDigits(y2);
    assert DigitsValue(y2) == 20;
    assert y3[..2] == y2 && y3[2] == '2';
    assert DigitsValue(y3) == 10 * DigitsValue(y2) + DigitValue('2');
    assert y[..3] == y3 && y[3] == '4';
    assert DigitsValue(y) == 10 * DigitsValue(y3) + DigitValue('4');
  }

  /** The value of a two-digit string. */
  lemma TwoDigits(ds: string)
    requires |ds| == 2 && AllDigits(ds)
    ensures DigitsValue(ds) == 10 * DigitValue(ds[0]) + DigitValue(ds[1])
  {
    var first := ds[..1];
    assert first[..0] == [] && first[0] == ds[0] && AllDigits(first);
    assert DigitsValue(first) == DigitValue(ds[0]);
  }

  /** `handleChange`: number inputs store the parsed number, other inputs the raw text. */
  function Changed(f: FormData, name: Field, value: string, inputType: string): FormData {
    f.Set(name, if inputType == "number" then Number(ParseFloat(value)) else Str(value))
  }

  /** `handleFrequencyChange`: the chosen frequency, and recurring unless it is "one-time". */
  function FrequencyChanged(f: FormData, value: string): FormData {
    f.(frequency := Str(value), is_recurring := Bool(value != OneTime))
  }

  /**
   * `handleRecurringChange`: unticking forces "one-time"; ticking turns
   * "one-time" into "monthly" and keeps any other frequency.
   */
  function RecurringChanged(f: FormData, checked: bool): FormData {
    f.(is_recurring := Bool(checked),
       frequency := if checked then (if f.frequency == Str(OneTime) then Str(Monthly) else f.frequency)
                    else Str(OneTime))
  }

  /** `handleChange` replaces only the named field. */
  lemma ChangedSpec(f: FormData, name: Field, value: string, inputType: string)
    ensures inputType == "number" ==> Changed(f, name, value, inputType).Get(name) == Number(ParseFloat(value))
    ensures inputType != "number" ==> Changed(f, name, value, inputType).Get(name) == Str(value)
    ensures forall g :: g != name ==> Changed(f, name, value, inputType).Get(g) == f.Get(g)
  {
  }

  /** `handleFrequencyChange` sets the frequency and the recurring flag and leaves the other six fields. */
  lemma FrequencyChangedSpec(f: FormData, value: string)
    ensures FrequencyChanged(f, value).frequency == Str(value)
    ensures FrequencyChanged(f, value).is_recurring == Bool(value != OneTime)
    ensures forall g :: g != Frequency && g != IsRecurring ==> FrequencyChanged(f, value).Get(g) == f.Get(g)
  {
  }

  /** `handleRecurringChange`, case by case, leaving the other six fields. */
  lemma RecurringChangedSpec(f: FormData, checked: bool)
    ensures !checked ==> RecurringChanged(f, checked).is_recurring == Bool(false)
    ensures !checked ==> RecurringChanged(f, checked).frequency == Str(OneTime)
    ensures checked && f.frequency == Str(OneTime) ==> RecurringChanged(f, checked).frequency == Str(Monthly)
    ensures checked && f.frequency != Str(OneTime) ==> RecurringChanged(f, checked).frequency == f.frequency
    ensures checked ==> RecurringChanged(f, checked).is_recurring == Bool(true)
    ensures forall g :: g != Frequency && g != IsRecurring ==> RecurringChanged(f, checked).Get(g) == f.Get(g)
  {
  }

  /** The coupling the recurrence controls keep: recurring exactly when the frequency is not "one-time". */
  predicate Coupled(f: FormData) {
    f.is_recurring == Bool(f.frequency != Str(OneTime))
  }

  /** Each recurrence handler leaves the form coupled, and a field edit keeps it so. */
  lemma HandlersKeepCoupling(f: FormData, value: string, checked: bool, name: Field, text: string, inputType: string)
    ensures Coupled(FrequencyChanged(f, value))
    ensures Coupled(RecurringChanged(f, checked))
    ensures Coupled(f) && name != Frequency && name != IsRecurring ==> Coupled(Changed(f, name, text, inputType))
  {
  }

  /**
   * The initial record need not be coupled: a reply that names a frequency
   * but says nothing about recurrence starts the form non-recurring with
   * that frequency.
   */
  lemma InitialFormMayBeUncoupled()
    ensures var x := NoExtraction.(frequency := Str(Monthly));
      InitialForm(x, "2024-03-01").Success? && !Coupled(InitialForm(x, "2024-03-01").value)
  {
  }

  /** The record passed to `onSubmit`. */
  datatype FinalInvoice = FinalInvoice(
    invoice_number: Js, company: Js, customer: Js, total: JsNumber,
    date: Js, is_recurring: bool, frequency: Js, description: Js)

  /** `finalData`, built from the form record on submit. */
  function Finalize(f: FormData): FinalInvoice {
    FinalInvoice(
      invoice_number := f.invoice_number,
      company := f.company,
      customer := f.customer,
      total := ParseFloatOf(f.total),
      date := f.date,
      is_recurring := Truthy(f.is_recurring),
      frequency := if Truthy(f.is_recurring) then f.frequency else Null,
      description := f.description)
  }

  /** The submitted record copies five fields and derives the other three. */
  lemma FinalizeSpec(f: FormData)
    ensures var r := Finalize(f);
      && r.invoice_number == f.invoice_number && r.company == f.company && r.customer == f.customer
      && r.date == f.date && r.description == f.description
      && r.total == ParseFloatOf(f.total)
      && (r.is_recurring <==> Truthy(f.is_recurring))
      && (!r.is_recurring ==> r.frequency == Null)
      && (r.is_recurring ==> r.frequency == f.frequency)
  {
  }

  /**
   * From a coupled form with a text frequency, the submitted record carries
   * a frequency exactly when it is recurring, and that frequency is never
   * "one-time".
   */
  lemma CoupledSubmission(f: FormData)
    requires Coupled(f) && f.frequency.Str?
    ensures Finalize(f).frequency != Null <==> Finalize(f).is_recurring
    ensures Finalize(f).is_recurring ==> Finalize(f).frequency != Str(OneTime)
  {
  }

  /**
   * The form does not restrict a recurring invoice to the four offered
   * frequencies: ticking "recurring" on a form whose reply had no frequency
   * submits a recurring record with frequency "".
   */
  lemma RecurringWithEmptyFrequency(today: string)
    requires InitialForm(NoExtraction, today).Success?
    ensures var r := Finalize(RecurringChanged(InitialForm(NoExtraction, today).value, true));
      r.is_recurring && r.frequency == Str("")
  {
  }

  /** The review form component: its record and its submitting flag. */
  class InvoiceFormEditor {
    var formData: FormData
    var isSubmitting: bool

    /** Mounting the component with the extraction reply and today's `YYYY-MM-DD` date. */
    constructor (extracted: Extracted, today: string)
      requires InitialForm(extracted, today).Success?
      ensures formData == InitialForm(extracted, today).value
      ensures !isSubmitting
    {
      formData := InitialForm(extracted, today).value;
      isSubmitting := false;
    }

    method HandleChange(name: Field, value: string, inputType: string)
      modifies this
      ensures formData == Changed(old(formData), name, value, inputType)
      ensures isSubmitting == old(isSubmitting)
    {
      var stored := if inputType == "number" then Number(ParseFloat(value)) else Str(value);
      formData := formData.Set(name, stored);
    }

    method HandleFrequencyChange(value: string)
      modifies this
      ensures formData == FrequencyChanged(old(formData), value)
      ensures Coupled(formData)
      ensures isSubmitting == old(isSubmitting)
    {
      formData := formData.(frequency := Str(value), is_recurring := Bool(value != OneTime));
    }

    method HandleRecurringChange(checked: bool)
      modifies this
      ensures formData == RecurringChanged(old(formData), checked)
      ensures Coupled(formData)
      ensures isSubmitting == old(isSubmitting)
    {
      var frequency := formData.frequency;
      if checked {
        if frequency == Str(OneTime) {
          frequency := Str(Monthly);
        }
      } else {
        frequency := Str(OneTime);
      }
      formData := formData.(is_recurring := Bool(checked), frequency := frequency);
    }

    /**
     * `handleSubmit`: raises `isSubmitting`, hands `Finalize(formData)` to
     * `onSubmit` (returned here as `submitted`), and lowers the flag in the
     * `finally` block, so it ends false whether `onSubmit` resolves or
     * throws; the form record is not touched.
     */
    method HandleSubmit() returns (submitted: FinalInvoice)
      modifies this
      ensures submitted == Finalize(old(formData))
      ensures formData == old(formData)
      ensures !isSubmitting
    {
      isSubmitting := true;
      submitted := FinalInvoice(
        invoice_number := formData.invoice_number,
        company := formData.company,
        customer := formData.customer,
        total := ParseFloatOf(formData.total),
        date := formData.date,
        is_recurring := Truthy(formData.is_recurring),
        frequency := if Truthy(formData.is_recurring) then formData.frequency else Null,
        description := formData.description);
      isSubmitting := false;
    }
  }
}
