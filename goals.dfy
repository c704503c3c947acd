/**
 * The goals page: a dialog form that creates or edits savings goals, the
 * `financial_goals` table it writes to, and the tips shown on each goal.
 * The table is held in memory; a failed write is an input flag.
 */
module Goals {
  import opened Wrappers
  import opened JsNumbers
  import opened JsValues

  /** The dialog's form state: every field is the text of an input. */
  datatype GoalForm = GoalForm(
    title: string, description: string, target_amount: string,
    target_date: string, category: string, current_amount: string)

  /** The form as it starts and as every successful save leaves it. */
  const BlankForm := GoalForm("", "", "", "", "", "0")

  /**
   * A goal as the table holds it: the form's fields with the amounts parsed
   * and stored (a NaN amount is stored as null), plus owner, time and status.
   */
  datatype GoalData = GoalData(
    user_id: string, title: string, description: string, target_amount: Stored,
    target_date: string, category: string, current_amount: Stored,
    created_at: string, status: string)

  /** A row of `financial_goals`. */
  datatype Goal = Goal(id: nat, data: GoalData)

  /** `x || 0` for a number: NaN (and zero) become zero. */
  function OrZero(n: JsNumber): (r: JsNumber)
    ensures r.Finite?
    ensures n.Finite? ==> r == n
  {
    if n.NaN? then Finite(0.0) else n
  }

  /**
   * The record a save writes: the form's texts copied, the target amount
   * parsed as it is (null when it does not parse), the current amount
   * parsed with 0 for text that does not parse, the current user, the save
   * time and status "active".
   */
  function GoalRecord(form: GoalForm, userId: string, now: string): (g: GoalData)
    ensures g.user_id == userId && g.created_at == now && g.status == "active"
    ensures g.title == form.title && g.description == form.description
    ensures g.target_date == form.target_date && g.category == form.category
    ensures ParseFloat(form.target_amount).NaN? ==> g.target_amount == StoredNull
    ensures ParseFloat(form.target_amount).Finite? ==> g.target_amount == StoredNumber(ParseFloat(form.target_amount).value)
    ensures ParseFloat(form.current_amount).NaN? ==> g.current_amount == StoredNumber(0.0)
    ensures ParseFloat(form.current_amount).Finite? ==> g.current_amount == StoredNumber(ParseFloat(form.current_amount).value)
  {
    GoalData(userId, form.title, form.description, Store(ParseFloat(form.target_amount)),
             form.target_date, form.category, Store(OrZero(ParseFloat(form.current_amount))), now, "active")
  }

  /** Row ids are distinct and below the next id the table will hand out. */
  predicate TableValid(table: seq<Goal>, nextId: nat) {
    && (forall i, j :: 0 <= i < j < |table| ==> table[i].id != table[j].id)
    && (forall i :: 0 <= i < |table| ==> table[i].id < nextId)
  }

  /** `.update(data).eq('id', id)`: every row with that id gets the new data, the others stay. */
  function UpdateById(table: seq<Goal>, id: nat, data: GoalData): (r: seq<Goal>)
    ensures |r| == |table|
    ensures forall i :: 0 <= i < |r| ==> r[i].id == table[i].id
    ensures forall i :: 0 <= i < |r| && table[i].id == id ==> r[i].data == data
    ensures forall i :: 0 <= i < |r| && table[i].id != id ==> r[i] == table[i]
  {
    seq(|table|, i requires 0 <= i < |table| => if table[i].id == id then Goal(id, data) else table[i])
  }

  /** `.update({ current_amount }).eq('id', id)`: only that row's current amount changes. */
  function SetProgress(table: seq<Goal>, id: nat, amount: Stored): (r: seq<Goal>)
    ensures |r| == |table|
    ensures forall i :: 0 <= i < |r| ==> r[i].id == table[i].id
    ensures forall i :: 0 <= i < |r| && table[i].id == id ==>
      r[i].data == table[i].data.(current_amount := amount)
    ensures forall i :: 0 <= i < |r| && table[i].id != id ==> r[i] == table[i]
  {
    seq(|table|, i requires 0 <= i < |table| =>
      if table[i].id == id then Goal(id, table[i].data.(current_amount := amount)) else table[i])
  }

  /** `.delete().eq('id', id)`: the rows with that id go, the others stay. */
  function DeleteById(table: seq<Goal>, id: nat): (r: seq<Goal>)
    ensures forall g :: g in r <==> g in table && g.id != id
    ensures |r| <= |table|
  {
    if table == [] then []
    else if table[0].id == id then DeleteById(table[1..], id)
    else [table[0]] + DeleteById(table[1..], id)
  }

  /** Deleting keeps the order of the remaining rows: a table without that id is left as it is. */
  lemma {:induction false} DeleteAbsentId(table: seq<Goal>, id: nat)
    requires forall i :: 0 <= i < |table| ==> table[i].id != id
    ensures DeleteById(table, id) == table
  {
    if table != [] {
      DeleteAbsentId(table[1..], id);
      assert table == [table[0]] + table[1..];
    }
  }

  /** With distinct ids, deleting removes exactly one row when the id is present. */
  lemma {:induction false} DeleteRemovesOneRow(table: seq<Goal>, nextId: nat, k: nat)
    requires TableValid(table, nextId) && k < |table|
    ensures |DeleteById(table, table[k].id)| == |table| - 1
  {
    var id := table[k].id;
    if k == 0 {
      DeleteAbsentId(table[1..], id);
    } else {
      assert TableValid(table[1..], nextId);
      DeleteRemovesOneRow(table[1..], nextId, k - 1);
    }
  }

  lemma UpdateKeepsValid(table: seq<Goal>, nextId: nat, id: nat, data: GoalData)
    requires TableValid(table, nextId)
    ensures TableValid(UpdateById(table, id, data), nextId)
  {
  }

  lemma SetProgressKeepsValid(table: seq<Goal>, nextId: nat, id: nat, amount: Stored)
    requires TableValid(table, nextId)
    ensures TableValid(SetProgress(table, id, amount), nextId)
  {
  }

  lemma {:induction false} DeleteKeepsValid(table: seq<Goal>, nextId: nat, id: nat)
    requires TableValid(table, nextId)
    ensures TableValid(DeleteById(table, id), nextId)
  {
    if table != [] {
      assert TableValid(table[1..], nextId);
      DeleteKeepsValid(table[1..], nextId, id);
      var rest := DeleteById(table[1..], id);
      if table[0].id != id {
        var r := [table[0]] + rest;
        forall j | 0 < j < |r|
          ensures r[0].id != r[j].id
        {
          assert r[j] == rest[j - 1];
          assert r[j] in table[1..];
          var k :| 0 <= k < |table[1..]| && table[1..][k] == r[j];
          assert table[k + 1] == r[j];
        }
        forall j | 0 <= j < |r| ensures r[j].id < nextId {
          if j > 0 {
            assert r[j] in table[1..];
          }
        }
      }
    }
  }

  /** The `TypeError` that `null.toString()` throws. */
  const NullToString := "Cannot read properties of null (reading 'toString')"

  /** `x.toString()` on a stored amount: the number's text, or the `TypeError` for null. */
  function AmountText(d: Stored): Result<string, string> {
    match d
    case StoredNumber(v) => Success(NumberToString(Finite(v)))
    case StoredNull => Failure(NullToString)
  }

  /**
   * `handleEdit`'s form: the goal's texts, and its amounts as `toString`
   * renders them; building it throws when either amount is null.
   */
  function EditForm(g: GoalData): (f: Result<GoalForm, string>)
    ensures f.Success? <==> g.target_amount.StoredNumber? && g.current_amount.StoredNumber?
    ensures f.Failure? ==> f.error == NullToString
    ensures f.Success? ==>
      && f.value.title == g.title && f.value.description == g.description
      && f.value.target_date == g.target_date && f.value.category == g.category
      && f.value.target_amount == NumberToString(Finite(g.target_amount.value))
      && f.value.current_amount == NumberToString(Finite(g.current_amount.value))
  {
    match AmountText(g.target_amount)
    case Failure(e) => Failure(e)
    case Success(target) =>
      match AmountText(g.current_amount)
      case Failure(e) => Failure(e)
      case Success(current) =>
        Success(GoalForm(g.title, g.description, target, g.target_date, g.category, current))
  }

  /**
   * Opening a goal for editing and saving it untouched writes back the
   * same texts and, for whole amounts, the same amounts; only owner, time
   * and status are refreshed.
   */
  lemma EditThenSave(g: GoalData, t: int, c: int, userId: string, now: string)
    requires g.target_amount == StoredNumber(t as real) && g.current_amount == StoredNumber(c as real)
    ensures EditForm(g).Success?
    ensures GoalRecord(EditForm(g).value, userId, now)
      == g.(user_id := userId, created_at := now, status := "active")
  {
    WholeNumberRoundTrip(t);
    WholeNumberRoundTrip(c);
  }

  /** The state of the goals page: the table, the list it shows, and the dialog. */
  class GoalsPage {
    var table: seq<Goal>
    var nextId: nat
    var goals: seq<Goal>
    var open: bool
    var editingGoal: Option<Goal>
    var formData: GoalForm

    predicate Valid()
      reads this
    {
      TableValid(table, nextId)
    }

    /** The page as it first renders over the existing rows, before the fetch answers. */
    constructor (rows: seq<Goal>, nextRowId: nat)
      requires TableValid(rows, nextRowId)
      ensures Valid() && table == rows && nextId == nextRowId
      ensures goals == [] && !open && editingGoal.None? && formData == BlankForm
    {
      table := rows;
      nextId := nextRowId;
      goals := [];
      open := false;
      editingGoal := None;
      formData := BlankForm;
    }

    /**
     * `fetchGoals`, run when the page mounts: the list shows the table; a
     * failed query is logged and leaves the list as it was.
     */
    method FetchGoals(fails: bool)
      modifies this`goals
      ensures fails ==> goals == old(goals)
      ensures !fails ==> goals == table
    {
      if !fails {
        goals := table;
      }
    }

    /**
     * `handleSubmit`: update the goal being edited, or insert a new one;
     * on success close the dialog, forget the edited goal, blank the form
     * and reload the list; on a failed write change nothing.
     */
    method HandleSubmit(userId: string, now: string, fails: bool)
      requires Valid()
      modifies this
      ensures Valid()
      ensures fails ==> unchanged(this)
      ensures !fails ==> var data := GoalRecord(old(formData), userId, now);
        && table == (if old(editingGoal).Some? then UpdateById(old(table), old(editingGoal).value.id, data)
                     else old(table) + [Goal(old(nextId), data)])
        && nextId == (if old(editingGoal).Some? then old(nextId) else old(nextId) + 1)
        && goals == table && !open && editingGoal.None? && formData == BlankForm
    {
      if !fails {
        Save(GoalRecord(formData, userId, now));
      }
    }

    /** The successful part of a save, once the record is built. */
    method Save(data: GoalData)
      requires Valid()
      modifies this
      ensures Valid()
      ensures table == (if old(editingGoal).Some? then UpdateById(old(table), old(editingGoal).value.id, data)
                        else old(table) + [Goal(old(nextId), data)])
      ensures nextId == (if old(editingGoal).Some? then old(nextId) else old(nextId) + 1)
      ensures goals == table && !open && editingGoal.None? && formData == BlankForm
    {
      if editingGoal.Some? {
        UpdateKeepsValid(table, nextId, editingGoal.value.id, data);
        table := UpdateById(table, editingGoal.value.id, data);
      } else {
        table := table + [Goal(nextId, data)];
        nextId := nextId + 1;
      }
      open := false;
      editingGoal := None;
      formData := BlankForm;
      goals := table;
    }

    /**
     * `handleEdit`: remember the goal, fill the form from it and open the
     * dialog. When an amount is null the form cannot be built: the handler
     * throws after remembering the goal, and the form and dialog stay as
     * they were.
     */
    method HandleEdit(goal: Goal)
      modifies this`editingGoal, this`formData, this`open
      ensures editingGoal == Some(goal)
      ensures EditForm(goal.data).Success? ==> formData == EditForm(goal.data).value && open
      ensures EditForm(goal.data).Failure? ==> formData == old(formData) && open == old(open)
    {
      editingGoal := Some(goal);
      var form := EditForm(goal.data);
      if form.Success? {
        formData := form.value;
        open := true;
      }
    }

    /** `handleDelete`: remove the row with that id and reload; a failed delete changes nothing. */
    method HandleDelete(goalId: nat, fails: bool)
      requires Valid()
      modifies this`table, this`goals
      ensures Valid()
      ensures fails ==> table == old(table) && goals == old(goals)
      ensures !fails ==> table == DeleteById(old(table), goalId) && goals == table
    {
      if !fails {
        DeleteKeepsValid(table, nextId, goalId);
        table := DeleteById(table, goalId);
        goals := table;
      }
    }

    /** `updateProgress`: set that row's current amount to the parsed value (null for NaN) and reload. */
    method UpdateProgress(goalId: nat, newAmount: Js, fails: bool)
      requires Valid()
      modifies this`table, this`goals
      ensures Valid()
      ensures fails ==> table == old(table) && goals == old(goals)
      ensures !fails ==> table == SetProgress(old(table), goalId, Store(ParseFloatOf(newAmount))) && goals == table
    {
      if !fails {
        SetAmount(goalId, Store(ParseFloatOf(newAmount)));
      }
    }

    /** The successful part of a progress update, once the amount is parsed. */
    method SetAmount(goalId: nat, amount: Stored)
      requires Valid()
      modifies this`table, this`goals
      ensures Valid()
      ensures table == SetProgress(old(table), goalId, amount) && goals == table
    {
      SetProgressKeepsValid(table, nextId, goalId, amount);
      table := SetProgress(table, goalId, amount);
      goals := table;
    }
  }

  /** `(current_amount / target_amount) * 100` on the stored amounts, where null counts as 0. */
  function Progress(g: GoalData): (q: Quotient)
    ensures var c, t := Arithmetic(g.current_amount), Arithmetic(g.target_amount);
      && (t != 0.0 ==> q.Ratio? && q.r * t == c * 100.0)
      && (t == 0.0 ==> (q.NotANumber? <==> c == 0.0) && (q.PositiveInfinity? <==> c > 0.0)
                       && (q.NegativeInfinity? <==> c < 0.0))
    ensures g.current_amount.StoredNull? && Arithmetic(g.target_amount) != 0.0 ==> q == Ratio(0.0)
  {
    Percent(Arithmetic(g.current_amount), Arithmetic(g.target_amount))
  }

  /**
   * Clearing the progress input writes `parseFloat("")`, a NaN, which is
   * stored as null: the goal then reads as 0 % progress against a positive
   * target, and opening it for editing throws.
   */
  lemma ClearedProgressReadsAsZero(table: seq<Goal>, id: nat, i: nat)
    requires i < |table| && table[i].id == id
    ensures var g := SetProgress(table, id, Store(ParseFloatOf(Str(""))))[i].data;
      && g.current_amount == StoredNull
      && (Arithmetic(g.target_amount) > 0.0 ==> Progress(g) == Ratio(0.0) && LessThan(Progress(g), 25.0))
      && EditForm(g).Failure?
  {
    ClearedInputIsNull();
    var g := SetProgress(table, id, StoredNull)[i].data;
    assert g == table[i].data.(current_amount := StoredNull);
    if Arithmetic(g.target_amount) > 0.0 {
      assert Progress(g) == Ratio(0.0);
    }
  }

  /** The text of a cleared input is not a number, so it is stored as null. */
  lemma ClearedInputIsNull()
    ensures Store(ParseFloatOf(Str(""))) == StoredNull
  {
    assert ParseFloatOf(Str("")) == ParseFloat("");
    assert Unsigned("") == "";
    ParseFloatDefinedIff("");
  }

  function SavingsTip(monthlyRequired: string): string {
    "To reach your goal, you need to save $" + monthlyRequired + " per month."
  }

  const EmergencyFundTips := ["Aim to have 3-6 months of living expenses saved.",
                              "Keep this money in a high-yield savings account for easy access."]
  const RetirementTips := ["Consider maximizing your 401(k) contributions if available.",
                           "Look into IRA options for additional tax advantages."]
  const DebtRepaymentTips := ["Consider the snowball or avalanche method for debt repayment.",
                              "Look into debt consolidation if you have high-interest debt."]
  const DefaultTips := ["Set up automatic transfers to your savings account.",
                        "Review and cut unnecessary expenses to reach your goal faster."]
  const GettingStartedTip := "You're just getting started! Stay motivated by tracking your progress regularly."
  const AlmostThereTip := "You're almost there! Consider increasing your savings rate for the final push."

  /** The pair of tips the category switch chooses. */
  function CategoryTips(category: string): (r: seq<string>)
    ensures |r| == 2
  {
    if category == "Emergency Fund" then EmergencyFundTips
    else if category == "Retirement" then RetirementTips
    else if category == "Debt Repayment" then DebtRepaymentTips
    else DefaultTips
  }

  /** Every category outside the three named ones, and only those, gets the default pair. */
  lemma DefaultTipsIff(category: string)
    ensures CategoryTips(category) == DefaultTips <==>
      category != "Emergency Fund" && category != "Retirement" && category != "Debt Repayment"
  {
    assert |DefaultTips[0]| == 51;
    assert |EmergencyFundTips[0]| == 48 && |RetirementTips[0]| == 59 && |DebtRepaymentTips[0]| == 61;
  }

  /**
   * `generateTips` for one goal; `monthlyRequired` is the amount text the
   * savings tip shows. The list is the savings tip, the category pair, and
   * at most one progress tip.
   */
  method GenerateTips(goal: GoalData, monthlyRequired: string) returns (tips: seq<string>)
    ensures 3 <= |tips| <= 4
    ensures tips[0] == SavingsTip(monthlyRequired) && tips[1..3] == CategoryTips(goal.category)
    ensures LessThan(Progress(goal), 25.0) ==> |tips| == 4 && tips[3] == GettingStartedTip
    ensures AtLeast(Progress(goal), 75.0) ==> |tips| == 4 && tips[3] == AlmostThereTip
    ensures |tips| == 4 <==> LessThan(Progress(goal), 25.0) || AtLeast(Progress(goal), 75.0)
  {
    var progress := Progress(goal);
    tips := [];
    tips := tips + [SavingsTip(monthlyRequired)];
    var pair := CategoryTips(goal.category);
    tips := tips + [pair[0]];
    tips := tips + [pair[1]];
    if LessThan(progress, 25.0) {
      tips := tips + [GettingStartedTip];
    } else if AtLeast(progress, 75.0) {
      tips := tips + [AlmostThereTip];
    }
  }

  /**
   * The "getting started" threshold without division: current is under a
   * quarter of a positive target, over a quarter of a negative one, or
   * negative against a zero target.
   */
  lemma GettingStartedIff(c: real, t: real)
    ensures LessThan(Percent(c, t), 25.0) <==>
      || (t > 0.0 && 4.0 * c < t) || (t < 0.0 && 4.0 * c > t) || (t == 0.0 && c < 0.0)
  {
    if t != 0.0 {
      var r := Percent(c, t).r;
      assert r * t == c * 100.0;
      if t > 0.0 {
        assert r < 25.0 <==> r * t < 25.0 * t;
      } else {
        assert r < 25.0 <==> r * t > 25.0 * t;
      }
    }
  }

  /**
   * The "almost there" threshold without division: current is at least
   * three quarters of a positive target, at most three quarters of a
   * negative one, or positive against a zero target.
   */
  lemma AlmostThereIff(c: real, t: real)
    ensures AtLeast(Percent(c, t), 75.0) <==>
      || (t > 0.0 && 4.0 * c >= 3.0 * t) || (t < 0.0 && 4.0 * c <= 3.0 * t) || (t == 0.0 && c > 0.0)
  {
    if t != 0.0 {
      ScaledAtLeast(Percent(c, t).r, c, t);
    }
  }

  /** `r >= 75` for `r = c / t * 100`, multiplied out by the sign of `t`. */
  lemma ScaledAtLeast(r: real, c: real, t: real)
    requires t != 0.0 && r * t == c * 100.0
    ensures r >= 75.0 <==> (t > 0.0 && 4.0 * c >= 3.0 * t) || (t < 0.0 && 4.0 * c <= 3.0 * t)
  {
    if t > 0.0 && r >= 75.0 {
      assert (r - 75.0) * t >= 0.0;
    } else if t > 0.0 {
      assert (75.0 - r) * t > 0.0;
    } else if r >= 75.0 {
      assert (r - 75.0) * t <= 0.0;
    } else {
      assert (75.0 - r) * t < 0.0;
    }
  }
}
