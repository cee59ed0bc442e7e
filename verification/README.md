# MindMoney, modelled in Dafny

MindMoney is a personal-finance web application. A React front end keeps a
session ledger (a salary and a list of expense entries, at most one per
category) and shows what is derived from it: total spent, savings, a
per-category breakdown and two fixed budget plans. It also offers a
ten-question financial-stress quiz. An Express/MongoDB server handles four
account requests: sign-up, login, "forgot password" and password reset.

This project models the decision logic of that application and proves what
it promises. It has one module per screen or service:

- `Ledger` (`ledger.dfy`) models the Add Expenses screen.
  - The validation chain of the add-expense form.
  - Appending and deleting entries.
  - Total spent and clamped savings.
  - The per-category totals, kept in the insertion order of a JavaScript object.
  - The five most recent entries.
  - The "Back to Home" guard.
  - The screen's state is a class whose methods are proved against the pure
    functions, and every method keeps the ledger invariant: one entry per
    category, every amount positive.
- `BudgetPlanner` (`planner.dfy`) models the Income Budget Planner.
  - Unclamped savings.
  - The 50-30-20 and 70-20-10 plans.
  - The suggestion rule.
  - The category percentages.
  - The no-data redirect.
- `StressQuiz` (`quiz.dfy`) models the quiz.
  - The question table.
  - The cursor and answer state machine, as a class.
  - The total, the average and the five stress tiers.
  - The tips, the support alert and the progress bar.
- `SignUp` (`signup.dfy`) models the sign-up form.
  - The 25-point password strength meter.
  - The e-mail pattern, proved equal to a plain description of its shape.
  - The ordered submit checks.
  - The strength label.
  - The handling of the server's answer.
- `ResetPassword` (`reset.dfy`) models the reset form.
  - The five password rules and their check marks.
  - The checks before the request is sent: the browser's required-field
    check, then the form's mismatch check. None of the five rules is checked.
  - How the rules relate to the sign-up meter.
- `AuthServer` (`auth.dfy`) models the four request handlers.
  - Each handler is a pure function from a store (a `map` from e-mail to
    account) to a reply and a new store.
  - Each handler is also a method of a class that holds the store.
  - The password hash is a pair of functions given as a parameter. The two
    properties the lemmas need of it are stated as hypotheses:
    - `Sound`: a password matches its own digest.
    - `Discriminating`: a password never matches another password's digest.
- `Wrappers` (`wrappers.dfy`) holds the `Option` type.

Amounts, the salary and averages are exact `real` numbers. An empty form
field is `None`.

Two behaviours of the code are worth knowing:

- Savings are computed differently on two screens. The Add Expenses screen
  clamps them at zero, while the planner shows them unclamped and negative on
  overspend.
- The reset handler asks for no token. Any registered e-mail can have its
  password replaced.

## Model

| member | source | states |
|---|---|---|
| Ledger.CheckSubmission | mindmoney/src/screens/AddExpenses.jsx:52-70 | an entry is accepted iff salary > 0, a category other than "" and "Not Selected" is chosen, that category has no entry yet, and the amount is present and > 0; each error is returned exactly when its own check is the first to fail, in the order salary, category, duplicate, amount |
| Ledger.AcceptKeepsInvariant | mindmoney/src/screens/AddExpenses.jsx:62-79 | appending an accepted entry keeps categories pairwise distinct and every amount positive |
| Ledger.FullLedgerRejects | mindmoney/src/screens/AddExpenses.jsx:57-65 | once all seven offered categories have an entry, no category the selector offers is accepted |
| Ledger.OfferedCategoriesFit | mindmoney/src/screens/AddExpenses.jsx:25-34 | filling the selector in order accepts each of the seven categories with a positive amount |
| Ledger.ExpenseScreen.Mount | mindmoney/src/screens/AddExpenses.jsx:12-19 | the screen opens over the session ledger, with the form on "Not Selected", an empty amount and today's date |
| Ledger.ExpenseScreen.EnterSalary | mindmoney/src/screens/AddExpenses.jsx:125-131 | the salary becomes the parsed input, or 0 when it does not parse; nothing else changes |
| Ledger.ExpenseScreen.SelectCategory | mindmoney/src/screens/AddExpenses.jsx:134-137 | only the form's category changes |
| Ledger.ExpenseScreen.EnterAmount | mindmoney/src/screens/AddExpenses.jsx:153-158 | only the form's amount changes |
| Ledger.ExpenseScreen.Submit | mindmoney/src/screens/AddExpenses.jsx:49-82 | a rejected submission shows its error and changes nothing; an accepted one appends exactly one entry at the end, resets category and amount, keeps the date, shows the success alert, and keeps the ledger invariant |
| Ledger.RemoveId | mindmoney/src/screens/AddExpenses.jsx:84-86 | an entry survives deletion iff it was in the ledger and its id differs from the deleted id |
| Ledger.RemoveIdConcat | mindmoney/src/screens/AddExpenses.jsx:84-86 | deletion distributes over concatenation, so survivors keep their ledger order |
| Ledger.RemoveIdKeepsInvariant | mindmoney/src/screens/AddExpenses.jsx:84-86 | deleting keeps categories distinct and amounts positive |
| Ledger.ExpenseScreen.Delete | mindmoney/src/screens/AddExpenses.jsx:84-86 | the ledger becomes the old one without the entries of that id; the form and the salary are unchanged |
| Ledger.TotalSpent | mindmoney/src/screens/AddExpenses.jsx:88 | the total is non-negative on a ledger of positive amounts, and positive when the ledger is non-empty |
| Ledger.TotalSpentConcat | mindmoney/src/screens/AddExpenses.jsx:88 | the total of two ledgers joined is the sum of their totals |
| Ledger.TotalSpentOrderFree | mindmoney/src/screens/AddExpenses.jsx:88 | two ledgers holding the same entries (equal multisets), in any order, have the same total |
| Ledger.ClampedSavings | mindmoney/src/screens/AddExpenses.jsx:89 | savings are never negative; they are positive iff salary exceeds spending, and then savings plus spending is the salary |
| Ledger.CategoryTotalsKeys | mindmoney/src/screens/AddExpenses.jsx:91-94 | the breakdown holds exactly the ledger's categories, each once |
| Ledger.CategoryTotalsLookup | mindmoney/src/screens/AddExpenses.jsx:91-94 | each category's row equals the sum of that category's amounts |
| Ledger.CategoryTotalsSum | mindmoney/src/screens/AddExpenses.jsx:91-94 | the rows of the breakdown add up to the total spent |
| Ledger.CategoryTotalsOfDistinct | mindmoney/src/screens/AddExpenses.jsx:91-94 | on a ledger with one entry per category, the breakdown lists the entries in ledger order |
| Ledger.SalaryPercent | mindmoney/src/screens/AddExpenses.jsx:253 | a row's share of salary is 0 without a positive salary, lies in [0, 100] when the amount is within the salary, and exceeds 100 otherwise |
| Ledger.Recent | mindmoney/src/screens/AddExpenses.jsx:188 | the recent list has min(5, n) entries, and its k-th entry is the k-th newest |
| Ledger.BackToHome | mindmoney/src/screens/AddExpenses.jsx:168-178 | the button navigates iff salary > 0 and some expense exists; a missing salary is reported first, and with a salary an empty ledger gets the "at least one expense" message |
| BudgetPlanner.Savings | mindmoney/src/screens/IncomeBudgetPlanner.jsx:52-56 | planner savings are negative exactly on overspend, and clamping them at 0 gives the Add Expenses savings |
| BudgetPlanner.PercentagesSumTo100 | mindmoney/src/screens/IncomeBudgetPlanner.jsx:59-63 | whenever anything is spent, the category percentages sum to 100 |
| BudgetPlanner.PercentBounded | mindmoney/src/screens/IncomeBudgetPlanner.jsx:162-165 | on positive amounts every category percentage lies in [0, 100] |
| BudgetPlanner.BudgetPlans | mindmoney/src/screens/IncomeBudgetPlanner.jsx:72-89 | two plans of three shares each; each plan's shares sum to the salary and each holds a 20% savings share |
| BudgetPlanner.Suggest | mindmoney/src/screens/IncomeBudgetPlanner.jsx:91-106 | with salary > 0, plan 0 iff savings/salary >= 0.2, and the note is the one that belongs to the chosen plan; with no positive salary, index 0 and an empty note; the index always names a plan |
| BudgetPlanner.SuggestBySpending | mindmoney/src/screens/IncomeBudgetPlanner.jsx:95-97 | plan 0 is suggested iff spending is at most 80% of a positive salary |
| BudgetPlanner.NoDataRedirect | mindmoney/src/screens/IncomeBudgetPlanner.jsx:25 | when the screen redirects, there is nothing to show: no suggestion, no breakdown, zero savings; otherwise a salary or a breakdown exists |
| StressQuiz.Questions | mindmoney/src/screens/SmartQuiz.jsx:24-108 | ten questions with five options each |
| StressQuiz.Quiz.constructor | mindmoney/src/screens/SmartQuiz.jsx:110-112 | the quiz starts on question 0, with ten empty answers, not submitted |
| StressQuiz.Quiz.Select | mindmoney/src/screens/SmartQuiz.jsx:116-121 | choosing option i stores i + 1 for the current question only; all answers stay within 1..5 |
| StressQuiz.Quiz.Next | mindmoney/src/screens/SmartQuiz.jsx:123 | the cursor advances only below the last question, so it stays in [0, 9] |
| StressQuiz.Quiz.Prev | mindmoney/src/screens/SmartQuiz.jsx:124 | the cursor moves back only above 0 |
| StressQuiz.Quiz.Submit | mindmoney/src/screens/SmartQuiz.jsx:126-133 | submission succeeds iff no answer is empty; otherwise the message is shown and the state is unchanged |
| StressQuiz.Total | mindmoney/src/screens/SmartQuiz.jsx:135-138 | the total of valid answers lies in [0, 5n], and in [n, 5n] once all are answered |
| StressQuiz.Average | mindmoney/src/screens/SmartQuiz.jsx:139 | the average of ten valid answers lies in [0, 5] |
| StressQuiz.TierByTotal | mindmoney/src/screens/SmartQuiz.jsx:141-206 | the tier of the average equals the tier of the total, with bounds 15, 25, 35 and 45 |
| StressQuiz.TierMonotone | mindmoney/src/screens/SmartQuiz.jsx:141-206 | a higher average never gives a lower tier |
| StressQuiz.LevelInfo | mindmoney/src/screens/SmartQuiz.jsx:141-206 | the results show the tier's name and exactly four tips |
| StressQuiz.Tips | mindmoney/src/screens/SmartQuiz.jsx:148-204 | every tier carries exactly four tips |
| StressQuiz.ScoringExamples | mindmoney/src/screens/SmartQuiz.jsx:141-206 | all ones is Very Low, all fives is Very High, and a total of 35 is Moderate |
| StressQuiz.SupportAlert | mindmoney/src/screens/SmartQuiz.jsx:267 | the support alert shows iff the tier is High or Very High |
| StressQuiz.Progress | mindmoney/src/screens/SmartQuiz.jsx:114 | at question k the progress is 10(k + 1), within [10, 100] |
| SignUp.CriteriaMet | mindmoney/src/screens/SignUpForm.jsx:56-63 | at most four criteria hold; four iff the password is strong; zero iff none holds |
| SignUp.CheckPasswordStrength | mindmoney/src/screens/SignUpForm.jsx:56-63 | the score is 25 per criterion met, one of 0, 25, 50, 75, 100, and 100 iff the password is strong |
| SignUp.LabelByCriteria | mindmoney/src/screens/SignUpForm.jsx:203 | the label is Weak for at most one criterion, Medium for two, Strong for three or four |
| SignUp.EmailPatternIsShape | mindmoney/src/screens/SignUpForm.jsx:65-67 | the pattern holds iff the address has no white space, exactly one '@' with something before it, and a '.' inside the part after it |
| SignUp.SubmitSignup | mindmoney/src/screens/SignUpForm.jsx:69-93 | the request is sent iff e-mail, user name (at least 4), strength (100) and confirmation all pass, and then it carries the form's fields; each message is shown exactly when its own check is the first to fail, in the order e-mail, user name, strength, confirmation |
| SignUp.SentSignupIsWellFormed | mindmoney/src/screens/SignUpForm.jsx:48-82 | with the meter tracking the password, a sent request has a well-shaped e-mail and a strong password |
| SignUp.OnSignupResponse | mindmoney/src/screens/SignUpForm.jsx:95-105 | success iff the reply is ok; the e-mail-taken dialog iff the reply says so; otherwise the server's message, or "Signup failed" when it is missing or empty |
| ResetPassword.RuleMarks | mindmoney/src/screens/ResetPassword.jsx:14-20 | five marks in list order, each set iff its rule holds; all set iff the password meets all five rules |
| ResetPassword.LongRunIsLong | mindmoney/src/screens/ResetPassword.jsx:15 | a password meeting the first rule has at least 8 characters |
| ResetPassword.AllRulesStrongForSignup | mindmoney/src/screens/ResetPassword.jsx:14-20 | a password meeting all five rules scores 100 on the sign-up meter |
| ResetPassword.StrongDoesNotMeetRules | mindmoney/src/screens/ResetPassword.jsx:14-20 | the converse fails: a non-listed symbol, or a line break inside the first eight characters |
| ResetPassword.SubmitReset | mindmoney/src/screens/ResetPassword.jsx:22-110 | the browser blocks submission iff a required field is empty or the address fails its e-mail check; otherwise the request is sent iff the two passwords agree, carrying the e-mail and the password, and the mismatch message is shown iff they differ |
| ResetPassword.RulesDoNotGate | mindmoney/src/screens/ResetPassword.jsx:22-35 | a password failing four of the five rules is still sent, once the browser lets the form through |
| ResetPassword.OnResetResponse | mindmoney/src/screens/ResetPassword.jsx:39-44 | back to login iff the reply is ok; otherwise the reply's message, or the generic one when it is missing or empty |
| AuthServer.SignupOutcome | mindmoney/server/server.js:29-46 | a taken e-mail gives 400 and keeps the store; an empty required field gives 500 and keeps the store; otherwise 201 and exactly one record is added, all others kept; store validity is preserved |
| AuthServer.LoginReply | mindmoney/server/server.js:48-67 | unknown e-mail gives 400 "Email not found"; a failing comparison gives 400 "Invalid password"; 200 iff the password matches, with the stored name and e-mail |
| AuthServer.ForgotReply | mindmoney/server/server.js:69-82 | 200 iff the e-mail is registered, else 400 "Email not found" |
| AuthServer.ResetOutcome | mindmoney/server/server.js:84-100 | unknown e-mail gives 400 and keeps the store; otherwise 200, and only that record's digest changes; store validity is preserved |
| AuthServer.SignupThenLogin | mindmoney/server/server.js:38-63 | after a successful sign-up, the same e-mail and password log in and return the name and e-mail given |
| AuthServer.SignupTwice | mindmoney/server/server.js:33-36 | a second sign-up of the same e-mail is refused with 400 and changes nothing |
| AuthServer.ResetThenLogin | mindmoney/server/server.js:89-96 | after a reset, the new password logs in, with name and e-mail unchanged |
| AuthServer.OldPasswordFailsAfterReset | mindmoney/server/server.js:89-96 | after a reset to a different password, the old one gets 400 "Invalid password" |
| AuthServer.ForgotAgreesWithReset | mindmoney/server/server.js:74-90 | forgot-password and reset succeed for exactly the same e-mails |
| AuthServer.AuthService.constructor | mindmoney/server/server.js:19-26 | the service starts with an empty, valid store |
| AuthServer.AuthService.Signup | mindmoney/server/server.js:29-46 | the handler's reply and new store are those of SignupOutcome, and the store stays valid |
| AuthServer.AuthService.Login | mindmoney/server/server.js:48-67 | the handler replies as LoginReply and cannot modify the store |
| AuthServer.AuthService.Forgot | mindmoney/server/server.js:69-82 | the handler replies as ForgotReply and cannot modify the store |
| AuthServer.AuthService.Reset | mindmoney/server/server.js:84-100 | the handler's reply and new store are those of ResetOutcome, and the store stays valid |

## Left out

- Parsing is not modelled. `parseFloat`, `Number(x || 0)`, NaN and IEEE rounding are outside the model: amounts, the salary and averages are exact reals, and a field that does not parse is `None`. As a result:
  - the planner's `Number(amount || 0)` is the identity on stored amounts;
  - an amount string that passes the `<= 0` test but parses to NaN is not represented.
- The `toFixed(1)` and `toLocaleString` formatting, the currency prefix, the pie charts and the per-answer bars on the quiz results are display only and are not modelled.
- String lengths are counted in Unicode scalar values. JavaScript counts UTF-16 code units, so the password-length and user-name-length tests differ for characters outside the Basic Multilingual Plane.
- Network calls, navigation, timers and dialogs are not modelled:
  - the client's `fetch`, the "Server not responding" and "Server error, try again later" paths, `navigate` and `setTimeout`;
  - the SweetAlert, Snackbar and Dialog components;
  - the recommendation pop-up, the disabled selector options and the disabled quiz buttons.
- The login and forgot-password screens, the dashboard, the footer and the routing component are only empty-field checks, I/O and static content; they are not part of this model.
- The server's 500 reply for a storage fault or a hashing failure is not modelled. The 500 reply for an empty required field at sign-up is modelled.
- The error text that accompanies a 500 reply is not modelled.
- The race between two concurrent sign-ups of one e-mail (a check followed by a non-atomic insert) is not modelled: the model is sequential.
- bcrypt is not modelled. The hash and compare functions are parameters, the salt is a parameter standing in for bcrypt's random salt, and the cost factor 10 is not represented.
- `Date.now()` ids and today's date are passed in as parameters.
- AuthServer.SignupThenLogin, AuthServer.ResetThenLogin: hold only for a hash that is `Sound`. That is a hypothesis about bcrypt, not a fact proved here.
- AuthServer.OldPasswordFailsAfterReset: holds only for a hash that is `Discriminating`. bcrypt is not: it reads only the first 72 bytes of a password, so after a reset to a password that shares its first 72 bytes with the old one, the old password still logs in.
- ResetPassword.SubmitReset: the browser's e-mail syntax check for the e-mail input type is not modelled. It enters as the flag `emailAccepted`.
