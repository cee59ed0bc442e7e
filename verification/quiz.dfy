/** The financial-stress quiz: ten fixed questions of five ordinal options
    each, a cursor and an answer vector that the user fills in, and the
    scoring that maps the answers to one of five stress tiers. */
module StressQuiz {
  import opened Wrappers

  datatype Question = Question(category: string, text: string, options: seq<string>)

  datatype Tier = VeryLow | Low | Moderate | High | VeryHigh

  /** What the results page shows for a tier. */
  datatype Level = Level(name: string, tone: string, message: string, tips: seq<string>)

  const UnansweredMessage: string := "Please answer all questions before submitting."

  const Frequency: seq<string> := ["Never", "Rarely", "Sometimes", "Often", "Always"]

  const IncomeQuestion := Question("Income vs Expenses",
    "How often do you struggle to pay all your monthly bills on time?", Frequency)
  const EmergencyQuestion := Question("Emergency Fund",
    "If you had an unexpected expense of $500, how would you handle it?",
    ["Easily cover with savings", "Cover with small adjustments", "Use partial savings/credit",
     "Mostly credit/loan", "Impossible without major stress"])
  const BudgetQuestion := Question("Monthly Budget",
    "How much of your income goes to fixed monthly expenses?",
    ["Less than 20%", "20–40%", "40–60%", "60–80%", "More than 80%"])
  const DebtQuestion := Question("Credit & Debt",
    "How much stress do your monthly debt payments cause you?",
    ["None at all", "Very little", "Some", "Quite a lot", "Extreme stress"])
  const FoodQuestion := Question("Food & Groceries",
    "How often do you worry about affording groceries and food?", Frequency)
  const TransportQuestion := Question("Transportation",
    "How stressful are your monthly transportation costs?",
    ["Not stressful", "Slightly stressful", "Moderately stressful", "Very stressful",
     "Extremely stressful"])
  const HealthQuestion := Question("Healthcare",
    "How do healthcare and medical expenses affect your monthly budget?",
    ["No impact", "Minimal impact", "Some impact", "Large impact", "Severe impact"])
  const SavingsQuestion := Question("Savings & Future",
    "How much are you able to save each month?",
    ["A lot", "Some", "A little", "Almost nothing", "None at all"])
  const SleepQuestion := Question("Sleep & Mental Health",
    "How often do money worries keep you awake at night?", Frequency)
  const ControlQuestion := Question("Overall Control",
    "How in control do you feel about your monthly financial situation?",
    ["Completely in control", "Mostly in control", "Somewhat in control", "Rarely in control",
     "Not at all in control"])

  /** The question table, in the order the quiz asks it. Option k of every
      question is worth k + 1 points, from least to most stress. */
  function Questions(): (qs: seq<Question>)
    ensures |qs| == 10
    ensures forall i :: 0 <= i < |qs| ==> |qs[i].options| == 5
  {
    [IncomeQuestion, EmergencyQuestion, BudgetQuestion, DebtQuestion, FoodQuestion,
     TransportQuestion, HealthQuestion, SavingsQuestion, SleepQuestion, ControlQuestion]
  }

  /** An answer slot is empty or holds a score from 1 to 5. */
  predicate ValidAnswer(a: Option<int>)
  {
    a.None? || 1 <= a.value <= 5
  }

  predicate AllValid(answers: seq<Option<int>>)
  {
    forall i :: 0 <= i < |answers| ==> ValidAnswer(answers[i])
  }

  predicate Complete(answers: seq<Option<int>>)
  {
    forall i :: 0 <= i < |answers| ==> answers[i].Some?
  }

  // ---------------------------------------------------------------------------
  // Scoring

  /** The sum of the answers, an empty slot counting 0. */
  function Total(answers: seq<Option<int>>): (t: int)
    ensures AllValid(answers) ==> 0 <= t <= 5 * |answers|
    ensures AllValid(answers) && Complete(answers) ==> |answers| <= t
  {
    if answers == [] then 0
    else
      var last := answers[|answers| - 1];
      Total(answers[..|answers| - 1]) + (if last.Some? then last.value else 0)
  }

  /** The average score: the total over the number of questions. */
  function Average(answers: seq<Option<int>>): (avg: real)
    ensures AllValid(answers) && |answers| == |Questions()| ==> 0.0 <= avg <= 5.0
  {
    Total(answers) as real / |Questions()| as real
  }

  /** The tier of an average, with inclusive upper bounds 1.5, 2.5, 3.5, 4.5. */
  function TierOf(avg: real): Tier
  {
    if avg <= 1.5 then VeryLow
    else if avg <= 2.5 then Low
    else if avg <= 3.5 then Moderate
    else if avg <= 4.5 then High
    else VeryHigh
  }

  /** The same bands stated on integer totals of ten answers. */
  function TierOfTotal(total: int): Tier
  {
    if total <= 15 then VeryLow
    else if total <= 25 then Low
    else if total <= 35 then Moderate
    else if total <= 45 then High
    else VeryHigh
  }

  function Rank(t: Tier): nat
  {
    match t
    case VeryLow => 0
    case Low => 1
    case Moderate => 2
    case High => 3
    case VeryHigh => 4
  }

  /** Dividing by ten and comparing with the half-point bounds is the same as
      comparing the total with 15, 25, 35 and 45. */
  lemma TierByTotal(answers: seq<Option<int>>)
    ensures TierOf(Average(answers)) == TierOfTotal(Total(answers))
  {
    var t := Total(answers);
    assert Average(answers) == t as real / 10.0;
    assert t as real / 10.0 <= 1.5 <==> t <= 15;
    assert t as real / 10.0 <= 2.5 <==> t <= 25;
    assert t as real / 10.0 <= 3.5 <==> t <= 35;
    assert t as real / 10.0 <= 4.5 <==> t <= 45;
  }

  /** More stress points never give a lower tier. */
  lemma TierMonotone(a: real, b: real)
    requires a <= b
    ensures Rank(TierOf(a)) <= Rank(TierOf(b))
  {
  }

  /** The results page for an average: a tier's name, tone, message and four tips. */
  function LevelInfo(avg: real): (l: Level)
    ensures |l.tips| == 4
    ensures l.name == TierName(TierOf(avg))
  {
    var t := TierOf(avg);
    Level(TierName(t), Tone(t), Advice(t), Tips(t))
  }

  function TierName(t: Tier): string
  {
    match t
    case VeryLow => "Very Low Stress"
    case Low => "Low Stress"
    case Moderate => "Moderate Stress"
    case High => "High Stress"
    case VeryHigh => "Very High Stress"
  }

  function Tone(t: Tier): string
  {
    match t
    case VeryLow => "success"
    case Low => "info"
    case Moderate => "warn"
    case High => "danger"
    case VeryHigh => "critical"
  }

  function Advice(t: Tier): string
  {
    match t
    case VeryLow =>
      "Excellent financial health! Keep doing what you’re doing and consider optimizing savings/investments."
    case Low =>
      "You’re managing well with minor concerns. Keep building good habits and fine-tune your budget."
    case Moderate =>
      "You’re feeling some pressure. There’s room to improve budgeting and reduce avoidable costs."
    case High =>
      "Significant stress detected. Take action to reduce expenses and explore ways to increase income."
    case VeryHigh =>
      "Severe financial stress. Seek professional counseling and support resources as soon as possible."
  }

  function Tips(t: Tier): (tips: seq<string>)
    ensures |tips| == 4
  {
    match t
    case VeryLow =>
      ["Maintain your emergency fund (3–6 months).",
       "Automate savings and investments.",
       "Review insurance and subscriptions annually.",
       "Set new financial goals to stay motivated."]
    case Low =>
      ["Increase your savings rate gradually.",
       "Track small leaks (fees, unused subscriptions).",
       "Plan for upcoming large expenses.",
       "Rebalance spending categories quarterly."]
    case Moderate =>
      ["Create a zero-based budget and track weekly.",
       "Cut 1–2 non-essential categories for 60 days.",
       "Snowball or avalanche high-interest debts.",
       "Build an emergency fund—even small steps count."]
    case High =>
      ["List and pause non-essential spending immediately.",
       "Call providers to negotiate bills and rates.",
       "Consider temporary extra income (freelance/part-time).",
       "Prioritize high-interest debt repayment."]
    case VeryHigh =>
      ["Contact a nonprofit credit counselor for a plan.",
       "Ask creditors about hardship options.",
       "Check local assistance (food, utilities, housing).",
       "Focus on essentials first: food, shelter, utilities."]
  }

  /** The counselling alert on the results page. */
  function SupportAlert(avg: real): (shown: bool)
    ensures shown <==> TierOf(avg) == High || TierOf(avg) == VeryHigh
  {
    avg > 3.5
  }

  /** JavaScript's Math.round: the nearest integer, halves rounded up. */
  function Round(x: real): int
  {
    (x + 0.5).Floor
  }

  /** The progress bar: the percentage of the quiz reached at question
      `current`, rounded. */
  function Progress(current: int): (p: int)
    ensures 0 <= current < |Questions()| ==> p == 10 * (current + 1) && 10 <= p <= 100
  {
    Round((current + 1) as real / |Questions()| as real * 100.0)
  }

  function Uniform(n: nat, v: int): (s: seq<Option<int>>)
    ensures |s| == n
    ensures forall i :: 0 <= i < n ==> s[i] == Some(v)
  {
    if n == 0 then [] else Uniform(n - 1, v) + [Some(v)]
  }

  lemma {:induction false} TotalOfUniform(n: nat, v: int)
    ensures Total(Uniform(n, v)) == n * v
  {
    if n > 0 {
      var u := Uniform(n, v);
      assert u[..n - 1] == Uniform(n - 1, v);
      calc {
        Total(u);
        Total(u[..n - 1]) + v;
        { TotalOfUniform(n - 1, v); }
        (n - 1) * v + v;
        { assert (n - 1) * v + v == n * v; }
        n * v;
      }
    }
  }

  /** The extreme answer sheets: all ones is the lowest tier, all fives the
      highest; any complete sheet totalling 35 (average 3.5) is Moderate. */
  lemma ScoringExamples(answers: seq<Option<int>>)
    requires |answers| == 10 && Total(answers) == 35
    ensures TierOf(Average(Uniform(10, 1))) == VeryLow
    ensures TierOf(Average(Uniform(10, 5))) == VeryHigh
    ensures TierOf(Average(answers)) == Moderate
  {
    TotalOfUniform(10, 1);
    TotalOfUniform(10, 5);
    TierByTotal(Uniform(10, 1));
    TierByTotal(Uniform(10, 5));
    TierByTotal(answers);
  }

  // ---------------------------------------------------------------------------
  // The quiz screen

  class Quiz {
    var current: int
    var answers: seq<Option<int>>
    var submitted: bool

    ghost predicate Valid()
      reads this
    {
      0 <= current < |Questions()| && |answers| == |Questions()| && AllValid(answers)
    }

    constructor ()
      ensures Valid()
      ensures current == 0 && answers == seq(10, _ => None)
      ensures !submitted
    {
      current := 0;
      answers := seq(10, _ => None);
      submitted := false;
    }

    /** Choosing option `index` of the current question records its score. */
    method Select(index: int)
      requires Valid()
      requires 0 <= index < |Questions()[current].options|
      modifies this
      ensures Valid()
      ensures answers == old(answers)[current := Some(index + 1)]
      ensures current == old(current) && submitted == old(submitted)
    {
      var next := answers;
      next := next[current := Some(index + 1)];
      answers := next;
    }

    method Next()
      requires Valid()
      modifies this
      ensures Valid()
      ensures current == if old(current) < |Questions()| - 1 then old(current) + 1 else old(current)
      ensures answers == old(answers) && submitted == old(submitted)
    {
      if current < |Questions()| - 1 {
        current := current + 1;
      }
    }

    method Prev()
      requires Valid()
      modifies this
      ensures Valid()
      ensures current == if old(current) > 0 then old(current) - 1 else old(current)
      ensures answers == old(answers) && submitted == old(submitted)
    {
      if current > 0 {
        current := current - 1;
      }
    }

    /** Submitting: refused with a message while a question is unanswered. */
    method Submit() returns (alert: Option<string>)
      requires Valid()
      modifies this
      ensures Valid()
      ensures alert == (if Complete(old(answers)) then None else Some(UnansweredMessage))
      ensures submitted == (old(submitted) || Complete(old(answers)))
      ensures answers == old(answers) && current == old(current)
    {
      if None in answers {
        return Some(UnansweredMessage);
      }
      submitted := true;
      alert := None;
    }
  }
}
