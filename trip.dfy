/** The trip state kept in the Streamlit session: budget, expenses, diary and
    theme, seeded once per session from the saved file (or built-in defaults)
    and written back whole after every change. The file itself is modelled as
    the value it holds: `None` when it does not exist, otherwise the snapshot
    that was last written to it. */
module Trip {
  import opened Wrappers
  import opened Lists
  import opened Ledger

  /** The four persisted fields, `{"expenses", "total_budget", "diary", "dark_mode"}`. */
  datatype Snapshot = Snapshot(
    expenses: seq<Expense>,
    totalBudget: int,
    diary: seq<string>,
    darkMode: bool)

  const DefaultBudget: int := 150000
  /** The itinerary day shown first in a new session. */
  const FirstDay: string := "2/16 (월)"

  /** `load_data`: the saved snapshot if the file exists, otherwise the defaults. */
  function Load(file: Option<Snapshot>): (s: Snapshot)
    ensures file.None? ==> s.totalBudget == DefaultBudget && s.expenses == [] && s.diary == [] && !s.darkMode
    ensures file.Some? ==> s == file.value
  {
    match file
    case None => Snapshot([], DefaultBudget, [], false)
    case Some(saved) => saved
  }

  // ----- Derived metrics of a snapshot -----

  function Spent(s: Snapshot): int
  {
    Sum(s.expenses)
  }

  function RemainingOf(s: Snapshot): int
  {
    Remaining(s.totalBudget, Spent(s))
  }

  function ProgressOf(s: Snapshot): real
  {
    Progress(Spent(s), s.totalBudget)
  }

  // ----- The state transitions, as functions of the old snapshot -----

  /** `toggle_theme`: only the theme flag changes. */
  function Toggled(s: Snapshot): (r: Snapshot)
    ensures r.darkMode != s.darkMode
    ensures r.expenses == s.expenses && r.totalBudget == s.totalBudget && r.diary == s.diary
  {
    s.(darkMode := !s.darkMode)
  }

  /** The diary line for a note written at `timestamp` (formatted `%m/%d %H:%M`). */
  function DiaryLine(timestamp: string, note: string): (line: string)
    ensures |line| == |timestamp| + |note| + 3
    ensures line[0] == '[' && line[|timestamp| + 1..|timestamp| + 3] == "] "
    ensures line[1..|timestamp| + 1] == timestamp && line[|timestamp| + 3..] == note
  {
    "[" + timestamp + "] " + note
  }

  /** Submitting the diary form: an empty note is ignored. */
  function WithDiaryEntry(s: Snapshot, note: string, timestamp: string): (r: Snapshot)
    ensures note == "" ==> r == s
    ensures note != "" ==> r.diary == s.diary + [DiaryLine(timestamp, note)]
    ensures r.expenses == s.expenses && r.totalBudget == s.totalBudget && r.darkMode == s.darkMode
  {
    if note != "" then s.(diary := s.diary + [DiaryLine(timestamp, note)]) else s
  }

  function WithoutDiaryEntry(s: Snapshot, i: nat): (r: Snapshot)
    requires i < |s.diary|
    ensures r.diary == s.diary[..i] + s.diary[i + 1..]
    ensures r.expenses == s.expenses && r.totalBudget == s.totalBudget && r.darkMode == s.darkMode
  {
    s.(diary := RemoveAt(s.diary, i))
  }

  function WithBudget(s: Snapshot, budget: int): (r: Snapshot)
    ensures r.totalBudget == budget
    ensures r.expenses == s.expenses && r.diary == s.diary && r.darkMode == s.darkMode
  {
    s.(totalBudget := budget)
  }

  /** The expense form's guard: a non-empty description and an amount that
      was entered and is above zero. */
  predicate AcceptsExpense(item: string, amount: Option<int>)
  {
    item != "" && amount.Some? && amount.value > 0
  }

  function WithExpense(s: Snapshot, item: string, amount: Option<int>): (r: Snapshot)
    ensures !AcceptsExpense(item, amount) ==> r == s
    ensures AcceptsExpense(item, amount) ==>
      |r.expenses| == |s.expenses| + 1 &&
      r.expenses[..|s.expenses|] == s.expenses &&
      r.expenses[|s.expenses|] == Expense(item, amount.value)
    ensures r.totalBudget == s.totalBudget && r.diary == s.diary && r.darkMode == s.darkMode
  {
    if AcceptsExpense(item, amount) then s.(expenses := s.expenses + [Expense(item, amount.value)]) else s
  }

  function WithoutExpense(s: Snapshot, i: nat): (r: Snapshot)
    requires i < |s.expenses|
    ensures r.expenses == s.expenses[..i] + s.expenses[i + 1..]
    ensures r.totalBudget == s.totalBudget && r.diary == s.diary && r.darkMode == s.darkMode
  {
    s.(expenses := RemoveAt(s.expenses, i))
  }

  // ----- Properties of the transitions -----

  lemma ToggleTwice(s: Snapshot)
    ensures Toggled(Toggled(s)) == s
  {
  }

  /** A deleted row is gone and nothing else is: the remaining rows are the
      old ones minus that single occurrence, in the same order. */
  lemma RemovalDropsOneRow(s: Snapshot, i: nat)
    requires i < |s.expenses|
    ensures multiset(WithoutExpense(s, i).expenses) == multiset(s.expenses) - multiset{s.expenses[i]}
    ensures |WithoutExpense(s, i).expenses| == |s.expenses| - 1
  {
  }

  /** The spent total follows the add form: it grows by exactly the amount
      that was accepted and not at all otherwise. */
  lemma SpentAfterAdd(s: Snapshot, item: string, amount: Option<int>)
    ensures Spent(WithExpense(s, item, amount)) ==
      Spent(s) + (if AcceptsExpense(item, amount) then amount.value else 0)
  {
    if AcceptsExpense(item, amount) {
      SumAppend(s.expenses, Expense(item, amount.value));
    }
  }

  lemma SpentAfterDelete(s: Snapshot, i: nat)
    requires i < |s.expenses|
    ensures Spent(WithoutExpense(s, i)) == Spent(s) - s.expenses[i].amount
  {
    SumRemoveAt(s.expenses, i);
  }

  /** The add guard keeps every recorded amount positive, and so does deletion. */
  lemma PositiveAmountsKept(s: Snapshot, item: string, amount: Option<int>, i: nat)
    requires AllPositive(s.expenses)
    ensures AllPositive(WithExpense(s, item, amount).expenses)
    ensures i < |s.expenses| ==> AllPositive(WithoutExpense(s, i).expenses)
  {
  }

  /** With positive amounts the progress bar always lies in [0, 1], whatever
      the budget (zero and negative budgets included). */
  lemma ProgressInUnitInterval(s: Snapshot)
    requires AllPositive(s.expenses)
    ensures 0.0 <= ProgressOf(s) <= 1.0
  {
    SumAtLeastLength(s.expenses);
  }

  /** The budget-and-two-expenses walk-through: with a budget of 100000 and
      expenses of 3000 and 2000 logged from an empty list, 95000 remains. */
  lemma RemainingAfterTwoExpenses(s: Snapshot)
    requires s.expenses == []
    ensures RemainingOf(WithExpense(WithExpense(WithBudget(s, 100000), "lunch", Some(3000)), "taxi", Some(2000))) == 95000
  {
    var t := WithExpense(WithExpense(WithBudget(s, 100000), "lunch", Some(3000)), "taxi", Some(2000));
    assert t.expenses == [Expense("lunch", 3000), Expense("taxi", 2000)];
    SumAppend([Expense("lunch", 3000)], Expense("taxi", 2000));
  }

  /** One browser session: the keys the script keeps in `st.session_state`,
      plus `persisted`, the content of the data file. */
  class Session {
    var expenses: seq<Expense>
    var totalBudget: int
    var diary: seq<string>
    var darkMode: bool
    var selectedDay: Option<string>
    var initialized: bool
    var persisted: Option<Snapshot>

    /** The four persisted fields as they are in memory. */
    function Current(): Snapshot
      reads this
    {
      Snapshot(expenses, totalBudget, diary, darkMode)
    }

    /** Once initialised, a new session loading the file sees exactly the
        in-memory state. This rests on every `Save` succeeding: a write that
        fails or stops half way is not modelled. */
    ghost predicate Valid()
      reads this
    {
      initialized ==> Load(persisted) == Current()
    }

    /** A new session on a data file holding `file`; no session key is set yet. */
    constructor (file: Option<Snapshot>)
      ensures !initialized && selectedDay.None? && persisted == file
      ensures Valid()
    {
      expenses, totalBudget, diary, darkMode := [], DefaultBudget, [], false;
      selectedDay := None;
      initialized := false;
      persisted := file;
    }

    /** The initialisation block at the top of every script run: it loads the
        file only on the session's first run and leaves a chosen day alone. */
    method Initialize()
      requires Valid()
      modifies this
      ensures initialized && Valid()
      ensures old(initialized) ==> Current() == old(Current()) && selectedDay == old(selectedDay)
      ensures !old(initialized) ==> Current() == Load(old(persisted))
      ensures !old(initialized) ==>
        selectedDay == if old(selectedDay).None? then Some(FirstDay) else old(selectedDay)
      ensures persisted == old(persisted)
    {
      if !initialized {
        var saved := Load(persisted);
        expenses := saved.expenses;
        totalBudget := saved.totalBudget;
        diary := saved.diary;
        darkMode := saved.darkMode;
        if selectedDay.None? {
          selectedDay := Some(FirstDay);
        }
        initialized := true;
      }
    }

    /** The day pills, bound to the `selected_day` key. */
    method SelectDay(day: string)
      modifies this`selectedDay
      ensures selectedDay == Some(day)
    {
      selectedDay := Some(day);
    }

    /** `save_data`: the whole four-field snapshot overwrites the file. */
    method Save()
      modifies this`persisted
      ensures persisted == Some(Current())
    {
      persisted := Some(Current());
    }

    method ToggleTheme()
      requires initialized && Valid()
      modifies this`darkMode, this`persisted
      ensures Valid()
      ensures Current() == Toggled(old(Current()))
      ensures persisted == Some(Current())
    {
      darkMode := !darkMode;
      Save();
    }

    /** Submitting the diary form with `note`, at the local time `timestamp`. */
    method AddDiaryEntry(note: string, timestamp: string) returns (added: bool)
      requires initialized && Valid()
      modifies this`diary, this`persisted
      ensures Valid()
      ensures added <==> note != ""
      ensures Current() == WithDiaryEntry(old(Current()), note, timestamp)
      ensures persisted == if added then Some(Current()) else old(persisted)
    {
      added := note != "";
      if added {
        diary := diary + [DiaryLine(timestamp, note)];
        Save();
      }
    }

    /** The delete button of diary row `i`. */
    method DeleteDiaryEntry(i: nat)
      requires initialized && Valid()
      requires i < |diary|
      modifies this`diary, this`persisted
      ensures Valid()
      ensures Current() == WithoutDiaryEntry(old(Current()), i)
      ensures persisted == Some(Current())
    {
      diary := RemoveAt(diary, i);
      Save();
    }

    /** The budget input: the file is rewritten only when the value changed. */
    method UpdateBudget(newBudget: int) returns (changed: bool)
      requires initialized && Valid()
      modifies this`totalBudget, this`persisted
      ensures Valid()
      ensures changed <==> newBudget != old(totalBudget)
      ensures Current() == WithBudget(old(Current()), newBudget)
      ensures persisted == if changed then Some(Current()) else old(persisted)
    {
      changed := newBudget != totalBudget;
      if changed {
        totalBudget := newBudget;
        Save();
      }
    }

    /** Submitting the expense form; `amount` is `None` when the field was left blank. */
    method AddExpense(item: string, amount: Option<int>) returns (added: bool)
      requires initialized && Valid()
      modifies this`expenses, this`persisted
      ensures Valid()
      ensures added <==> AcceptsExpense(item, amount)
      ensures Current() == WithExpense(old(Current()), item, amount)
      ensures persisted == if added then Some(Current()) else old(persisted)
    {
      added := AcceptsExpense(item, amount);
      if added {
        expenses := expenses + [Expense(item, amount.value)];
        Save();
      }
    }

    /** The delete button of expense row `i`. */
    method DeleteExpense(i: nat)
      requires initialized && Valid()
      requires i < |expenses|
      modifies this`expenses, this`persisted
      ensures Valid()
      ensures Current() == WithoutExpense(old(Current()), i)
      ensures persisted == Some(Current())
    {
      expenses := RemoveAt(expenses, i);
      Save();
    }
  }

  /** A client of the session's contracts: a first session with no data file. */
  method FirstSessionWalkthrough()
  {
    var session := new Session(None);
    session.Initialize();
    assert session.Current().totalBudget == 150000 && session.selectedDay == Some(FirstDay);
    assert session.persisted.None?;

    var changed := session.UpdateBudget(100000);
    var added := session.AddExpense("lunch", Some(3000));
    added := session.AddExpense("taxi", Some(2000));
    assert session.Current().expenses == [Expense("lunch", 3000), Expense("taxi", 2000)];
    SumAppend([Expense("lunch", 3000)], Expense("taxi", 2000));
    assert RemainingOf(session.Current()) == 95000;

    added := session.AddExpense("", Some(100));
    assert !added;
    added := session.AddExpense("lunch", Some(0));
    assert !added && |session.expenses| == 2;

    var dark := session.darkMode;
    session.ToggleTheme();
    session.ToggleTheme();
    assert session.darkMode == dark;

    // A later session on the same file starts where this one stopped.
    var next := new Session(session.persisted);
    next.Initialize();
    assert next.Current() == session.Current();
  }
}
