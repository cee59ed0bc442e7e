/** The Income Budget Planner screen: pure calculations over the session
    ledger. It sums the ledger exactly as the Add Expenses screen does, but
    shows savings without clamping them, offers two fixed allocation plans
    and suggests one of them from the savings ratio. */
module BudgetPlanner {
  import opened Ledger

  /** One slice of an allocation plan. */
  datatype Share = Share(name: string, amount: real)

  datatype Plan = Plan(title: string, breakdown: seq<Share>)

  /** The suggested plan's index in `BudgetPlans` and the note shown with it. */
  datatype Suggestion = Suggestion(index: nat, note: string)

  /** One card of the category breakdown: the category, its total and its
      share of everything spent, in percent. */
  datatype CategoryShare = CategoryShare(category: string, amount: real, percent: real)

  const FiftyThirtyTwentyNote: string :=
    "💡 You’re saving at least 20% of your income. The 50-30-20 Rule helps maintain this balance while giving you flexibility."
  const SeventyTwentyTenNote: string :=
    "💡 Your savings are below 20%. The 70-20-10 Plan emphasizes essentials and savings for stability."

  /** Savings as this screen shows them: salary minus spending, negative on
      overspend; the Add Expenses screen shows the same value clamped at zero. */
  function Savings(salary: real, es: seq<Expense>): (s: real)
    ensures s < 0.0 <==> TotalSpent(es) > salary
    ensures ClampedSavings(salary, es) == (if s > 0.0 then s else 0.0)
  {
    salary - TotalSpent(es)
  }

  function SumShares(shares: seq<Share>): real
  {
    if shares == [] then 0.0 else shares[0].amount + SumShares(shares[1..])
  }

  lemma SumOfThree(a: Share, b: Share, c: Share)
    ensures SumShares([a, b, c]) == a.amount + b.amount + c.amount
  {
    assert [a, b, c][1..] == [b, c];
    assert [b, c][1..] == [c];
    assert [c][1..] == [];
    assert SumShares([c]) == c.amount;
    assert SumShares([b, c]) == b.amount + c.amount;
  }

  /** The 50-30-20 and the 70-20-10 plans for a salary. */
  function BudgetPlans(salary: real): (plans: seq<Plan>)
    ensures |plans| == 2
    ensures forall i :: 0 <= i < |plans| ==>
      |plans[i].breakdown| == 3 && SumShares(plans[i].breakdown) == salary
    ensures forall i :: 0 <= i < |plans| ==>
      exists k :: 0 <= k < 3 && plans[i].breakdown[k] == Share("Savings (20%)", salary * 0.2)
  {
    var fifty := [Share("Needs (50%)", salary * 0.5), Share("Wants (30%)", salary * 0.3),
                  Share("Savings (20%)", salary * 0.2)];
    var seventy := [Share("Needs (70%)", salary * 0.7), Share("Savings (20%)", salary * 0.2),
                    Share("Wants (10%)", salary * 0.1)];
    SumOfThree(fifty[0], fifty[1], fifty[2]);
    SumOfThree(seventy[0], seventy[1], seventy[2]);
    var plans := [Plan("📌 50-30-20 Rule", fifty), Plan("📌 70-20-10 Plan", seventy)];
    assert plans[0].breakdown[2] == Share("Savings (20%)", salary * 0.2);
    assert plans[1].breakdown[1] == Share("Savings (20%)", salary * 0.2);
    plans
  }

  /** The suggestion rule: with a positive salary, the 50-30-20 plan when at
      least a fifth of the salary is saved and the 70-20-10 plan otherwise;
      with no positive salary nothing is divided and nothing is suggested. */
  function Suggest(salary: real, es: seq<Expense>): (r: Suggestion)
    ensures r.index < |BudgetPlans(salary)|
    ensures salary <= 0.0 ==> r == Suggestion(0, "")
    ensures salary > 0.0 ==> (r.index == 0 <==> Savings(salary, es) / salary >= 0.2)
    ensures salary > 0.0 ==> r.note == (if r.index == 0 then FiftyThirtyTwentyNote else SeventyTwentyTenNote)
  {
    if salary > 0.0 then
      var ratio := Savings(salary, es) / salary;
      if ratio >= 0.2 then Suggestion(0, FiftyThirtyTwentyNote)
      else Suggestion(1, SeventyTwentyTenNote)
    else Suggestion(0, "")
  }

  /** The ratio test, stated without division: the 50-30-20 plan is suggested
      exactly when spending is at most 80% of a positive salary. */
  lemma SuggestBySpending(salary: real, es: seq<Expense>)
    requires salary > 0.0
    ensures Suggest(salary, es).index == 0 <==> TotalSpent(es) <= 0.8 * salary
  {
    RatioAtLeast(Savings(salary, es), salary, 0.2);
  }

  /** Real division by a positive number, isolated from the surrounding
      context so that the solver's nonlinear reasoning stays small. */
  lemma RatioAtLeast(x: real, d: real, bound: real)
    requires d > 0.0
    ensures x / d >= bound <==> x >= bound * d
  {
  }

  lemma SelfQuotient(x: real)
    requires x != 0.0
    ensures x / x == 1.0
  {
  }

  lemma QuotientAtMostOne(a: real, t: real)
    requires 0.0 <= a <= t && t > 0.0
    ensures 0.0 <= a / t <= 1.0
  {
  }

  /** A card's percentage: its share of the total, or zero when nothing is spent. */
  function Percent(amount: real, total: real): real
  {
    if total != 0.0 then amount / total * 100.0 else 0.0
  }

  function SharesOf(ts: seq<CategoryTotal>, total: real): (r: seq<CategoryShare>)
    ensures |r| == |ts|
    ensures forall i :: 0 <= i < |ts| ==>
      r[i] == CategoryShare(ts[i].category, ts[i].amount, Percent(ts[i].amount, total))
  {
    if ts == [] then []
    else [CategoryShare(ts[0].category, ts[0].amount, Percent(ts[0].amount, total))] + SharesOf(ts[1..], total)
  }

  /** The category cards of the planner. */
  function Breakdown(es: seq<Expense>): seq<CategoryShare>
  {
    SharesOf(CategoryTotals(es), TotalSpent(es))
  }

  function SumPercent(cs: seq<CategoryShare>): real
  {
    if cs == [] then 0.0 else cs[0].percent + SumPercent(cs[1..])
  }

  lemma {:induction false} SumPercentOfShares(ts: seq<CategoryTotal>, total: real)
    requires total != 0.0
    ensures SumPercent(SharesOf(ts, total)) == SumTotals(ts) / total * 100.0
  {
    if ts != [] {
      SumPercentOfShares(ts[1..], total);
      var r := SharesOf(ts, total);
      assert r[1..] == SharesOf(ts[1..], total);
      assert ts[0].amount / total * 100.0 + SumTotals(ts[1..]) / total * 100.0
          == (ts[0].amount + SumTotals(ts[1..])) / total * 100.0;
    }
  }

  /** Whenever anything is spent, the category percentages add up to 100. */
  lemma PercentagesSumTo100(es: seq<Expense>)
    requires TotalSpent(es) != 0.0
    ensures SumPercent(Breakdown(es)) == 100.0
  {
    var total := TotalSpent(es);
    CategoryTotalsSum(es);
    SumPercentOfShares(CategoryTotals(es), total);
    SelfQuotient(total);
  }

  /** On a ledger of positive amounts each card's percentage lies in [0, 100]. */
  lemma PercentBounded(es: seq<Expense>)
    requires AllPositive(es)
    ensures forall i :: 0 <= i < |Breakdown(es)| ==> 0.0 <= Breakdown(es)[i].percent <= 100.0
  {
    var ts := CategoryTotals(es);
    var total := TotalSpent(es);
    forall i | 0 <= i < |ts|
      ensures 0.0 <= Percent(ts[i].amount, total) <= 100.0
    {
      CategoryTotalsPositive(es);
      TotalsBoundedBySum(ts, i);
      CategoryTotalsSum(es);
      QuotientAtMostOne(ts[i].amount, total);
    }
  }

  lemma {:induction false} CategoryTotalsPositive(es: seq<Expense>)
    requires AllPositive(es)
    ensures forall i :: 0 <= i < |CategoryTotals(es)| ==> CategoryTotals(es)[i].amount > 0.0
  {
    if es != [] {
      var init := es[..|es| - 1];
      var last := es[|es| - 1];
      CategoryTotalsPositive(init);
      AddToPositive(CategoryTotals(init), last.category, last.amount);
    }
  }

  lemma {:induction false} AddToPositive(acc: seq<CategoryTotal>, c: string, a: real)
    requires a > 0.0
    requires forall i :: 0 <= i < |acc| ==> acc[i].amount > 0.0
    ensures forall i :: 0 <= i < |AddTo(acc, c, a)| ==> AddTo(acc, c, a)[i].amount > 0.0
  {
    if acc != [] && acc[0].category != c {
      AddToPositive(acc[1..], c, a);
      var r := AddTo(acc, c, a);
      assert r == [acc[0]] + AddTo(acc[1..], c, a);
      forall i | 0 <= i < |r| ensures r[i].amount > 0.0 {
        if i > 0 { assert r[i] == AddTo(acc[1..], c, a)[i - 1]; }
      }
    }
  }

  lemma {:induction false} TotalsBoundedBySum(ts: seq<CategoryTotal>, i: nat)
    requires i < |ts|
    requires forall k :: 0 <= k < |ts| ==> ts[k].amount > 0.0
    ensures 0.0 < ts[i].amount <= SumTotals(ts)
  {
    if i > 0 {
      TotalsBoundedBySum(ts[1..], i - 1);
    } else {
      assert SumTotals(ts[1..]) >= 0.0 by {
        if |ts| > 1 { TotalsBoundedBySum(ts[1..], 0); }
      }
    }
  }

  /** The planner sends the user back to the dashboard when the salary is
      zero (falsy) and no expense is recorded. */
  function NoDataRedirect(salary: real, es: seq<Expense>): (redirect: bool)
    ensures redirect ==> Suggest(salary, es) == Suggestion(0, "")
    ensures redirect ==> Breakdown(es) == [] && Savings(salary, es) == 0.0
    ensures !redirect ==> salary != 0.0 || |Breakdown(es)| > 0
  {
    salary == 0.0 && es == []
  }
}
