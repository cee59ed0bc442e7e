/** The session ledger behind the Add Expenses screen: a salary, an ordered
    list of expense entries, the form that adds to it, and the values the
    screen derives from it (total spent, clamped savings, per-category
    totals, the five most recent entries). */
module Ledger {
  import opened Wrappers

  /** One expense entry; `id` is the creation-time token of the entry. */
  datatype Expense = Expense(id: int, category: string, amount: real, date: string)

  /** One row of the per-category breakdown: a category and its summed amount. */
  datatype CategoryTotal = CategoryTotal(category: string, amount: real)

  datatype Severity = Error | Success

  /** What the screen's snackbar shows. */
  datatype Alert = Alert(message: string, severity: Severity)

  /** The rejections of the add-expense form, in the order they are checked. */
  datatype SubmitError = MissingSalary | MissingCategory | DuplicateCategory(category: string) | InvalidAmount

  /** The placeholder entry of the category selector. */
  const NotSelected: string := "Not Selected"

  /** The categories the selector offers besides the placeholder. */
  const OfferedCategories: seq<string> :=
    ["Food", "Travel", "EMI", "Shopping", "Home", "Healthcare", "Entertainment"]

  const AddedMessage: string := "Expense added successfully!"

  function Message(e: SubmitError): string
  {
    match e
    case MissingSalary => "Please enter your total salary!"
    case MissingCategory => "Please select a category!"
    case DuplicateCategory(c) => c + " already has an expense! Choose another category."
    case InvalidAmount => "Please enter a valid amount!"
  }

  // ---------------------------------------------------------------------------
  // Invariants of the ledger

  /** Some entry of the ledger has category `c` (the source's `expenses.some`). */
  predicate HasCategory(es: seq<Expense>, c: string)
  {
    exists i :: 0 <= i < |es| && es[i].category == c
  }

  predicate CategoriesDistinct(es: seq<Expense>)
  {
    forall i, j :: 0 <= i < j < |es| ==> es[i].category != es[j].category
  }

  predicate AllPositive(es: seq<Expense>)
  {
    forall i :: 0 <= i < |es| ==> es[i].amount > 0.0
  }

  /** What every ledger built by the screen satisfies: at most one entry per
      category, and every stored amount positive. */
  predicate LedgerInvariant(es: seq<Expense>)
  {
    CategoriesDistinct(es) && AllPositive(es)
  }

  // ---------------------------------------------------------------------------
  // Derived values

  /** The sum of the amounts, accumulated from the first entry to the last. */
  function TotalSpent(es: seq<Expense>): (t: real)
    ensures AllPositive(es) ==> t >= 0.0
    ensures AllPositive(es) && es != [] ==> t > 0.0
  {
    if es == [] then 0.0 else TotalSpent(es[..|es| - 1]) + es[|es| - 1].amount
  }

  lemma {:induction false} TotalSpentConcat(a: seq<Expense>, b: seq<Expense>)
    ensures TotalSpent(a + b) == TotalSpent(a) + TotalSpent(b)
  {
    if b != [] {
      assert (a + b)[..|a + b| - 1] == a + b[..|b| - 1];
      TotalSpentConcat(a, b[..|b| - 1]);
    } else {
      assert a + b == a;
    }
  }

  /** The total does not depend on the order of the entries: any two ledgers
      holding the same entries, in whatever order, have the same total. */
  lemma {:induction false} TotalSpentOrderFree(a: seq<Expense>, b: seq<Expense>)
    requires multiset(a) == multiset(b)
    ensures TotalSpent(a) == TotalSpent(b)
    decreases |a|
  {
    if a == [] {
      assert |b| == |multiset(b)| == 0;
    } else {
      var n := |a| - 1;
      var x := a[n];
      assert a == a[..n] + [x];
      assert x in multiset(b);
      var j :| 0 <= j < |b| && b[j] == x;
      var rest := b[..j] + b[j + 1..];
      assert b == b[..j] + [x] + b[j + 1..];
      assert multiset(a[..n]) == multiset(rest) by {
        assert multiset(a) == multiset(a[..n]) + multiset{x};
        assert multiset(b) == multiset(b[..j]) + multiset{x} + multiset(b[j + 1..]);
        assert multiset(rest) == multiset(b[..j]) + multiset(b[j + 1..]);
        assert multiset(a[..n]) == multiset(a) - multiset{x};
        assert multiset(rest) == multiset(b) - multiset{x};
      }
      TotalSpentOrderFree(a[..n], rest);
      TotalSpentConcat(b[..j], b[j + 1..]);
      TotalSpentConcat(b[..j], [x]);
      TotalSpentConcat(b[..j] + [x], b[j + 1..]);
      assert TotalSpent([x]) == x.amount by {
        assert [x][..0] == [];
      }
    }
  }

  /** Savings as the Add Expenses screen shows them: what is left of the
      salary, or zero when the expenses reach or exceed it. */
  function ClampedSavings(salary: real, es: seq<Expense>): (s: real)
    ensures s >= 0.0
    ensures s > 0.0 <==> salary > TotalSpent(es)
    ensures s > 0.0 ==> s + TotalSpent(es) == salary
  {
    var left := salary - TotalSpent(es);
    if left > 0.0 then left else 0.0
  }

  /** A breakdown row's share of the salary, in percent, as the Add Expenses
      screen shows it; zero while no positive salary is entered. */
  function SalaryPercent(amount: real, salary: real): (p: real)
    ensures salary <= 0.0 ==> p == 0.0
    ensures salary > 0.0 && 0.0 <= amount <= salary ==> 0.0 <= p <= 100.0
    ensures salary > 0.0 && amount > salary ==> p > 100.0
  {
    if salary > 0.0 then
      assert 0.0 <= amount <= salary ==> 0.0 <= amount / salary <= 1.0;
      assert amount > salary ==> amount / salary > 1.0;
      amount / salary * 100.0
    else 0.0
  }

  /** Reference definition: the amount spent on category `c`. */
  function SpentOn(es: seq<Expense>, c: string): real
  {
    if es == [] then 0.0
    else SpentOn(es[..|es| - 1], c) + (if es[|es| - 1].category == c then es[|es| - 1].amount else 0.0)
  }

  /** The categories present in a breakdown. */
  function Keys(ts: seq<CategoryTotal>): set<string>
  {
    if ts == [] then {} else {ts[0].category} + Keys(ts[1..])
  }

  /** The categories present in a ledger. */
  function CategoriesOf(es: seq<Expense>): set<string>
  {
    if es == [] then {} else CategoriesOf(es[..|es| - 1]) + {es[|es| - 1].category}
  }

  /** No category has two rows. */
  predicate KeysDistinct(ts: seq<CategoryTotal>)
  {
    ts == [] || (ts[0].category !in Keys(ts[1..]) && KeysDistinct(ts[1..]))
  }

  /** The amount a breakdown records for `c` (zero when `c` is absent). */
  function Lookup(ts: seq<CategoryTotal>, c: string): real
  {
    if ts == [] then 0.0 else if ts[0].category == c then ts[0].amount else Lookup(ts[1..], c)
  }

  function SumTotals(ts: seq<CategoryTotal>): real
  {
    if ts == [] then 0.0 else ts[0].amount + SumTotals(ts[1..])
  }

  /** One step of the accumulation: add `a` to the row of `c`, or open a new
      row for `c` at the end. A JavaScript object enumerates a new key after
      the existing ones only when the key is not integer-like; the category
      names ("Food", "Travel", ...) never are. */
  function AddTo(acc: seq<CategoryTotal>, c: string, a: real): seq<CategoryTotal>
  {
    if acc == [] then [CategoryTotal(c, a)]
    else if acc[0].category == c then [CategoryTotal(c, acc[0].amount + a)] + acc[1..]
    else [acc[0]] + AddTo(acc[1..], c, a)
  }

  /** Per-category totals, in order of each category's first entry. */
  function CategoryTotals(es: seq<Expense>): seq<CategoryTotal>
  {
    if es == [] then []
    else AddTo(CategoryTotals(es[..|es| - 1]), es[|es| - 1].category, es[|es| - 1].amount)
  }

  lemma {:induction false} AddToKeys(acc: seq<CategoryTotal>, c: string, a: real)
    ensures Keys(AddTo(acc, c, a)) == Keys(acc) + {c}
  {
    if acc != [] && acc[0].category != c {
      AddToKeys(acc[1..], c, a);
      assert AddTo(acc, c, a)[1..] == AddTo(acc[1..], c, a);
    } else if acc != [] {
      assert AddTo(acc, c, a)[1..] == acc[1..];
    }
  }

  lemma {:induction false} AddToDistinct(acc: seq<CategoryTotal>, c: string, a: real)
    requires KeysDistinct(acc)
    ensures KeysDistinct(AddTo(acc, c, a))
  {
    if acc != [] && acc[0].category != c {
      AddToDistinct(acc[1..], c, a);
      AddToKeys(acc[1..], c, a);
      assert AddTo(acc, c, a)[1..] == AddTo(acc[1..], c, a);
    } else if acc != [] {
      assert AddTo(acc, c, a)[1..] == acc[1..];
    }
  }

  lemma {:induction false} AddToSum(acc: seq<CategoryTotal>, c: string, a: real)
    ensures SumTotals(AddTo(acc, c, a)) == SumTotals(acc) + a
  {
    if acc != [] && acc[0].category != c {
      AddToSum(acc[1..], c, a);
      assert AddTo(acc, c, a)[1..] == AddTo(acc[1..], c, a);
    } else if acc != [] {
      assert AddTo(acc, c, a)[1..] == acc[1..];
    }
  }

  lemma {:induction false} AddToLookup(acc: seq<CategoryTotal>, c: string, a: real, d: string)
    ensures Lookup(AddTo(acc, c, a), d) == Lookup(acc, d) + (if d == c then a else 0.0)
  {
    if acc != [] && acc[0].category != c {
      AddToLookup(acc[1..], c, a, d);
      assert AddTo(acc, c, a)[1..] == AddTo(acc[1..], c, a);
    } else if acc != [] {
      assert AddTo(acc, c, a)[1..] == acc[1..];
    }
  }

  /** The breakdown holds each category of the ledger exactly once. */
  lemma {:induction false} CategoryTotalsKeys(es: seq<Expense>)
    ensures Keys(CategoryTotals(es)) == CategoriesOf(es)
    ensures KeysDistinct(CategoryTotals(es))
  {
    if es != [] {
      var init := es[..|es| - 1];
      var last := es[|es| - 1];
      CategoryTotalsKeys(init);
      AddToKeys(CategoryTotals(init), last.category, last.amount);
      AddToDistinct(CategoryTotals(init), last.category, last.amount);
    }
  }

  /** Each category's row holds the sum of that category's amounts. */
  lemma {:induction false} CategoryTotalsLookup(es: seq<Expense>, c: string)
    ensures Lookup(CategoryTotals(es), c) == SpentOn(es, c)
  {
    if es != [] {
      var last := es[|es| - 1];
      CategoryTotalsLookup(es[..|es| - 1], c);
      AddToLookup(CategoryTotals(es[..|es| - 1]), last.category, last.amount, c);
    }
  }

  /** The rows of the breakdown add up to the total spent. */
  lemma {:induction false} CategoryTotalsSum(es: seq<Expense>)
    ensures SumTotals(CategoryTotals(es)) == TotalSpent(es)
  {
    if es != [] {
      var last := es[|es| - 1];
      CategoryTotalsSum(es[..|es| - 1]);
      AddToSum(CategoryTotals(es[..|es| - 1]), last.category, last.amount);
    }
  }

  lemma {:induction false} CategoriesOfHas(es: seq<Expense>, c: string)
    ensures c in CategoriesOf(es) <==> HasCategory(es, c)
  {
    if es != [] {
      var init := es[..|es| - 1];
      CategoriesOfHas(init, c);
      if HasCategory(init, c) {
        var i :| 0 <= i < |init| && init[i].category == c;
        assert es[i] == init[i];
      }
      if HasCategory(es, c) && es[|es| - 1].category != c {
        var i :| 0 <= i < |es| && es[i].category == c;
        assert init[i] == es[i];
      }
    }
  }

  lemma {:induction false} AddToAppends(acc: seq<CategoryTotal>, c: string, a: real)
    requires c !in Keys(acc)
    ensures AddTo(acc, c, a) == acc + [CategoryTotal(c, a)]
  {
    if acc != [] {
      AddToAppends(acc[1..], c, a);
      assert [acc[0]] + (acc[1..] + [CategoryTotal(c, a)]) == acc + [CategoryTotal(c, a)];
    }
  }

  /** On a ledger with one entry per category, the breakdown lists the entries
      themselves, in ledger order. */
  lemma {:induction false} CategoryTotalsOfDistinct(es: seq<Expense>)
    requires CategoriesDistinct(es)
    ensures |CategoryTotals(es)| == |es|
    ensures forall i :: 0 <= i < |es| ==>
      CategoryTotals(es)[i] == CategoryTotal(es[i].category, es[i].amount)
  {
    if es != [] {
      var init := es[..|es| - 1];
      var last := es[|es| - 1];
      assert CategoriesDistinct(init) by {
        forall i, j | 0 <= i < j < |init| ensures init[i].category != init[j].category {
          assert init[i] == es[i] && init[j] == es[j];
        }
      }
      CategoryTotalsOfDistinct(init);
      CategoryTotalsKeys(init);
      CategoriesOfHas(init, last.category);
      forall i | 0 <= i < |init| ensures init[i].category != last.category {
        assert init[i] == es[i];
      }
      AddToAppends(CategoryTotals(init), last.category, last.amount);
    }
  }

  // ---------------------------------------------------------------------------
  // Recent entries and the "Back to Home" guard

  function Reverse(s: seq<Expense>): (r: seq<Expense>)
    ensures |r| == |s|
    ensures forall k :: 0 <= k < |s| ==> r[k] == s[|s| - 1 - k]
  {
    if s == [] then [] else [s[|s| - 1]] + Reverse(s[..|s| - 1])
  }

  /** The recent-expenses list: the last five entries (fewer when the ledger is
      shorter), newest first. */
  function Recent(es: seq<Expense>): (r: seq<Expense>)
    ensures |r| == if |es| < 5 then |es| else 5
    ensures forall k :: 0 <= k < |r| ==> r[k] == es[|es| - 1 - k]
  {
    Reverse(es[|es| - (if |es| < 5 then |es| else 5)..])
  }

  /** The "Back to Home" button: the message it shows, or None when it
      navigates to the dashboard. */
  function BackToHome(salary: real, es: seq<Expense>): (r: Option<string>)
    ensures r == None <==> salary > 0.0 && es != []
    ensures salary <= 0.0 ==> r == Some("Please enter your total salary before going back!")
    ensures salary > 0.0 && es == [] ==> r == Some("Please enter at least one expense before going back!")
  {
    if salary <= 0.0 then Some("Please enter your total salary before going back!")
    else if |es| == 0 then Some("Please enter at least one expense before going back!")
    else None
  }

  // ---------------------------------------------------------------------------
  // Adding and deleting entries

  /** The add-expense checks, in the order the screen runs them; None when the
      entry is accepted. `amount` is None when the amount field is empty. */
  function CheckSubmission(salary: real, es: seq<Expense>, category: string, amount: Option<real>): (r: Option<SubmitError>)
    ensures r == None <==>
      salary > 0.0 && category != "" && category != NotSelected &&
      !HasCategory(es, category) && amount.Some? && amount.value > 0.0
    ensures r == Some(MissingSalary) <==> salary <= 0.0
    ensures r == Some(MissingCategory) <==> salary > 0.0 && (category == "" || category == NotSelected)
    ensures r.Some? && r.value.DuplicateCategory? <==>
      salary > 0.0 && category != "" && category != NotSelected && HasCategory(es, category)
    ensures r.Some? && r.value.DuplicateCategory? ==> r.value.category == category
    ensures r == Some(InvalidAmount) <==>
      salary > 0.0 && category != "" && category != NotSelected && !HasCategory(es, category) &&
      (amount.None? || amount.value <= 0.0)
  {
    if salary <= 0.0 then Some(MissingSalary)
    else if category == "" || category == NotSelected then Some(MissingCategory)
    else if HasCategory(es, category) then Some(DuplicateCategory(category))
    else if amount.None? || amount.value <= 0.0 then Some(InvalidAmount)
    else None
  }

  /** An accepted entry keeps one entry per category and positive amounts. */
  lemma AcceptKeepsInvariant(salary: real, es: seq<Expense>, category: string, amount: Option<real>, id: int, date: string)
    requires LedgerInvariant(es)
    requires CheckSubmission(salary, es, category, amount) == None
    ensures LedgerInvariant(es + [Expense(id, category, amount.value, date)])
  {
    var es' := es + [Expense(id, category, amount.value, date)];
    forall i, j | 0 <= i < j < |es'| ensures es'[i].category != es'[j].category {
      if j == |es| {
        assert es'[i] == es[i];
      } else {
        assert es'[i] == es[i] && es'[j] == es[j];
      }
    }
  }

  /** Once all seven offered categories have an entry, no choice the selector
      offers can be added. */
  lemma FullLedgerRejects(salary: real, es: seq<Expense>, category: string, amount: Option<real>)
    requires forall c :: c in OfferedCategories ==> HasCategory(es, c)
    requires category in OfferedCategories || category == NotSelected
    ensures CheckSubmission(salary, es, category, amount) != None
  {
  }

  /** Each offered category can be added while the ledger only holds entries of
      the categories before it in the selector, so filling the selector in its
      order accepts all seven. */
  lemma OfferedCategoriesFit(salary: real, es: seq<Expense>, k: nat, a: real)
    requires salary > 0.0 && a > 0.0 && k < |OfferedCategories|
    requires forall i :: 0 <= i < |es| ==> es[i].category in OfferedCategories[..k]
    ensures CheckSubmission(salary, es, OfferedCategories[k], Some(a)) == None
  {
    var c := OfferedCategories[k];
    var pre := OfferedCategories[..k];
    forall i | 0 <= i < |es| ensures es[i].category != c {
      assert es[i].category in pre;
      var j :| 0 <= j < |pre| && pre[j] == es[i].category;
      assert pre[j] == OfferedCategories[j];
    }
  }

  /** The ledger without the entries whose id is `id` (the source's `filter`). */
  function RemoveId(es: seq<Expense>, id: int): (r: seq<Expense>)
    ensures |r| <= |es|
    ensures forall e :: e in r <==> e in es && e.id != id
  {
    if es == [] then []
    else (if es[0].id == id then [] else [es[0]]) + RemoveId(es[1..], id)
  }

  /** Removal works entry by entry, so it keeps the survivors in ledger order. */
  lemma {:induction false} RemoveIdConcat(a: seq<Expense>, b: seq<Expense>, id: int)
    ensures RemoveId(a + b, id) == RemoveId(a, id) + RemoveId(b, id)
  {
    if a == [] {
      assert a + b == b;
    } else {
      assert (a + b)[1..] == a[1..] + b;
      RemoveIdConcat(a[1..], b, id);
    }
  }

  lemma DistinctCons(x: Expense, s: seq<Expense>)
    requires CategoriesDistinct(s)
    requires forall e :: e in s ==> e.category != x.category
    ensures CategoriesDistinct([x] + s)
  {
    var r := [x] + s;
    forall i, j | 0 <= i < j < |r| ensures r[i].category != r[j].category {
      assert r[j] == s[j - 1];
      if i > 0 { assert r[i] == s[i - 1]; }
    }
  }

  lemma {:induction false} RemoveIdKeepsInvariant(es: seq<Expense>, id: int)
    requires LedgerInvariant(es)
    ensures LedgerInvariant(RemoveId(es, id))
  {
    if es != [] {
      var tail := es[1..];
      assert LedgerInvariant(tail) by {
        forall i, j | 0 <= i < j < |tail| ensures tail[i].category != tail[j].category {
          assert tail[i] == es[i + 1] && tail[j] == es[j + 1];
        }
      }
      RemoveIdKeepsInvariant(tail, id);
      var rest := RemoveId(tail, id);
      assert forall e :: e in rest ==> e in es;
      if es[0].id != id {
        forall e | e in rest ensures e.category != es[0].category {
          var m :| 0 <= m < |tail| && tail[m] == e;
          assert es[m + 1] == e;
        }
        DistinctCons(es[0], rest);
      }
    }
  }

  // ---------------------------------------------------------------------------
  // The screen's state

  /** The Add Expenses screen: `salary` and `expenses` are the app-wide session
      ledger, `category`, `amount` and `date` the add-expense form. */
  class ExpenseScreen {
    var salary: real
    var expenses: seq<Expense>
    var category: string
    var amount: Option<real>
    var date: string

    ghost predicate Valid()
      reads this
    {
      LedgerInvariant(expenses)
    }

    /** Opening the screen over the session ledger, with a fresh form dated today. */
    constructor Mount(salary: real, expenses: seq<Expense>, today: string)
      requires LedgerInvariant(expenses)
      ensures Valid()
      ensures this.salary == salary && this.expenses == expenses
      ensures category == NotSelected && amount == None && date == today
    {
      this.salary := salary;
      this.expenses := expenses;
      category := NotSelected;
      amount := None;
      date := today;
    }

    /** Typing into the salary field; `input` is None when it does not parse
        as a number, and that reads as a salary of zero. */
    method EnterSalary(input: Option<real>)
      requires Valid()
      modifies this
      ensures Valid()
      ensures salary == (if input.Some? then input.value else 0.0)
      ensures expenses == old(expenses)
      ensures category == old(category) && amount == old(amount) && date == old(date)
    {
      salary := if input.Some? then input.value else 0.0;
    }

    method SelectCategory(c: string)
      requires Valid()
      modifies this
      ensures Valid()
      ensures category == c
      ensures salary == old(salary) && expenses == old(expenses)
      ensures amount == old(amount) && date == old(date)
    {
      category := c;
    }

    method EnterAmount(a: Option<real>)
      requires Valid()
      modifies this
      ensures Valid()
      ensures amount == a
      ensures salary == old(salary) && expenses == old(expenses)
      ensures category == old(category) && date == old(date)
    {
      amount := a;
    }

    /** Submitting the form; `id` is the fresh token the new entry receives. */
    method Submit(id: int) returns (alert: Alert)
      requires Valid()
      modifies this
      ensures Valid()
      ensures salary == old(salary) && date == old(date)
      ensures match CheckSubmission(old(salary), old(expenses), old(category), old(amount))
        case Some(e) =>
          && alert == Alert(Message(e), Error)
          && expenses == old(expenses)
          && category == old(category) && amount == old(amount)
        case None =>
          && alert == Alert(AddedMessage, Success)
          && expenses == old(expenses) + [Expense(id, old(category), old(amount).value, old(date))]
          && category == NotSelected && amount == None
    {
      if salary <= 0.0 {
        return Alert(Message(MissingSalary), Error);
      }
      if category == "" || category == NotSelected {
        return Alert(Message(MissingCategory), Error);
      }
      if HasCategory(expenses, category) {
        return Alert(Message(DuplicateCategory(category)), Error);
      }
      if amount.None? || amount.value <= 0.0 {
        return Alert(Message(InvalidAmount), Error);
      }
      AcceptKeepsInvariant(salary, expenses, category, amount, id, date);
      expenses := expenses + [Expense(id, category, amount.value, date)];
      category, amount := NotSelected, None;
      alert := Alert(AddedMessage, Success);
    }

    method Delete(id: int)
      requires Valid()
      modifies this
      ensures Valid()
      ensures expenses == RemoveId(old(expenses), id)
      ensures salary == old(salary)
      ensures category == old(category) && amount == old(amount) && date == old(date)
    {
      RemoveIdKeepsInvariant(expenses, id);
      expenses := RemoveId(expenses, id);
    }
  }
}
