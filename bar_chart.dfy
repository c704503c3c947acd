/**
 * The bar chart's data preparation: five weekday rows whose income and
 * expense values are looked up by lower-case day name, with 0 for
 * anything missing or falsy.
 */
module BarChart {
  import opened Wrappers
  import opened JsNumbers
  import opened JsValues

  /** The chart's `data` prop; either series may be absent. */
  datatype WeekData = WeekData(income: Option<map<string, Js>>, expenses: Option<map<string, Js>>)

  datatype Row = Row(name: string, income: Js, expenses: Js)

  const Weekdays: seq<string> := ["Monday", "Tuesday", "Wednesday", "Thursday", "Friday"]
  const DayKeys: seq<string> := ["monday", "tuesday", "wednesday", "thursday", "friday"]

  /** `series?.[key]`: undefined when the series or the key is missing. */
  function Lookup(series: Option<map<string, Js>>, key: string): (v: Js)
    ensures series.None? ==> v.Undefined?
    ensures series.Some? && key !in series.value ==> v.Undefined?
    ensures series.Some? && key in series.value ==> v == series.value[key]
  {
    match series
    case None => Undefined
    case Some(m) => if key in m then m[key] else Undefined
  }

  /** The row for one weekday: `series?.[key] || 0` for both series. */
  function DayRow(data: WeekData, name: string, key: string): (r: Row)
    ensures r.name == name
    ensures r.income == Or(Lookup(data.income, key), Zero)
    ensures r.expenses == Or(Lookup(data.expenses, key), Zero)
  {
    Row(name, Or(Lookup(data.income, key), Zero), Or(Lookup(data.expenses, key), Zero))
  }

  /** `chartData`; an omitted `data` prop defaults to the empty object. */
  function ChartData(data: Option<WeekData>): (rows: seq<Row>)
    ensures |rows| == 5
    ensures forall i :: 0 <= i < 5 ==> rows[i].name == Weekdays[i]
    ensures forall i :: 0 <= i < 5 ==>
      rows[i] == DayRow(if data.Some? then data.value else WeekData(None, None), Weekdays[i], DayKeys[i])
  {
    var d := if data.Some? then data.value else WeekData(None, None);
    [DayRow(d, "Monday", "monday"), DayRow(d, "Tuesday", "tuesday"), DayRow(d, "Wednesday", "wednesday"),
     DayRow(d, "Thursday", "thursday"), DayRow(d, "Friday", "friday")]
  }

  /** Without data every one of the ten values is 0. */
  lemma OmittedDataIsZero()
    ensures forall i :: 0 <= i < 5 ==> ChartData(None)[i].income == Zero && ChartData(None)[i].expenses == Zero
  {
  }

  /**
   * Each value shown is the day's value exactly when that value is
   * present and truthy, and 0 otherwise; so no value shown is falsy
   * except the 0 default.
   */
  lemma ShownValues(data: WeekData, i: nat)
    requires i < 5
    ensures var row := ChartData(Some(data))[i];
      && (Truthy(Lookup(data.income, DayKeys[i])) ==> row.income == Lookup(data.income, DayKeys[i]))
      && (!Truthy(Lookup(data.income, DayKeys[i])) ==> row.income == Zero)
      && (Truthy(Lookup(data.expenses, DayKeys[i])) ==> row.expenses == Lookup(data.expenses, DayKeys[i]))
      && (!Truthy(Lookup(data.expenses, DayKeys[i])) ==> row.expenses == Zero)
      && (Truthy(row.income) || row.income == Zero)
      && (Truthy(row.expenses) || row.expenses == Zero)
  {
  }
}
