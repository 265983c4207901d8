# Budget tracker — a verified model of its core

The budget tracker is a small web application in which each registered user
records income and expense transactions under their own categories, keeps
saving goals, sees a dashboard (five most recent transactions, totals,
balance and an expense-by-category chart), chooses a display currency and
exports their transactions as CSV. A superuser can list, edit and delete
accounts.

This project models that core as Dafny:

- `common.dfy` (module `Common`): the `Option`, `Result` and `Outcome` types and
  the reasons a request is refused.
- `models.dfy` (module `Models`): the records (user, profile, category,
  transaction, saving goal), amounts in integer cents, the three currency
  codes, a goal's progress percentage, the transaction listing order, and the
  database as one `Db` value with its integrity rules (`Consistent`): one
  profile per user at most, usernames unique, category names unique per owner,
  a transaction's category owned by the transaction's owner, every id below
  its table's next id. It also holds the two delete rules: SET_NULL on a
  transaction's category and CASCADE from a user to everything they own.
- `forms.dfy` (module `Forms`): when each input form is valid, and how an
  accepted form becomes a record.
- `reports.dfy` (module `Reports`): the read-only views over one user's
  transactions, which are dashboard totals, chart data, histories, the recent
  list and export rows.
- `store.dfy` (module `Store`): the class `BudgetStore`, which holds every
  table as a map field with its next-id counter. Its methods are the requests
  that change the tables. Each method states its whole new state as a `Db`
  value, and each keeps `Valid()` (the integrity rules).

Every request is made by a logged-in user (`actor`). The requests that
create a record for the actor, change the actor's own account or need the
acting superuser require `actor` to be an existing account; the requests that
edit, delete or adjust a record look it up by its id together with `actor`
and require nothing of `actor`. A record that is missing or owned by someone
else is reported as `NotFound` and nothing changes. Deletes and the savings
adjustment act only on POST (`post` parameter). The superuser-only requests
answer `Forbidden` to anyone else.

## Model

| member | source | states |
|---|---|---|
| Models.ProgressPercentage | budget/models.py:71-75 | 0 when the target is not positive; otherwise current·100/target capped at 100; equals 100 once current ≥ target; never above 100 |
| Models.ProgressMonotone | budget/models.py:71-75 | a larger current amount never shows a lower percentage |
| Models.ProgressSign | budget/models.py:71-75 | with a positive target, the percentage is negative exactly when the current amount is, and is 100 exactly when current ≥ target |
| Models.InsertListed | budget/models.py:58-59 | inserting into a listing in order (date descending, then creation time descending) keeps it in order and adds exactly that transaction |
| Models.SortListing | budget/models.py:58-59 | the result is in listing order and is a permutation of the input |
| Models.WithProfile | budget/views.py:82-86 | setting a user's currency leaves that user with a profile holding exactly that currency, creating it if missing, and changes no other table and no other user's profile |
| Models.WithProfileTwice | budget/views.py:82-86 | creating the missing profile with the default currency and then setting the chosen one ends exactly as setting the chosen one |
| Models.WithCategory | budget/models.py:33-39 | a new category row takes the next category id and advances the counter; every existing category and every other table is unchanged |
| Models.WithCategoryConsistent | budget/models.py:39 | a category of an existing user under a name that user does not yet use keeps every integrity rule, including (owner, name) uniqueness |
| Models.SetNull | budget/models.py:51 | after a category goes, exactly the transactions that referred to it lose their category; no other field and no other transaction changes |
| Models.WithoutCategoryConsistent | budget/models.py:51 | deleting a category keeps every integrity rule: no transaction is left pointing at a missing category |
| Models.WithoutUser | budget/models.py:13-65 | deleting a user removes the user, the profile and every category, transaction and goal they own; every other record is kept unchanged |
| Models.WithoutUserConsistent | budget/models.py:13-65 | the database stays consistent and nothing owned by the deleted user remains |
| Forms.RegistrationError | budget/forms.py:5-19 | the form is accepted exactly when username and both passwords are given, a non-empty email passes the email validator, the passwords match and the username is free; mismatched passwords are always refused |
| Forms.NewUser | budget/views.py:21-23 | a registered account carries the form's username and email and is active, not staff, not superuser |
| Forms.ApplyUserUpdate | budget/forms.py:21-24 | the administrator's edit sets username, email and the active flag, and no other field |
| Forms.CategoryChoices | budget/forms.py:39-41 | the category choices offered to a user are exactly that user's categories |
| Forms.TransactionFormScoped | budget/forms.py:39-42 | a valid transaction form names only a category of the same user, and the empty ("Uncategorized") choice is always allowed |
| Forms.NewTransaction | budget/views.py:133-135 | a new transaction takes the form's fields, the acting user as owner and the current time as creation time |
| Forms.ApplyTransactionForm | budget/views.py:154-156 | an edited transaction keeps owner and creation time and takes every form field |
| Forms.ApplyGoalForm | budget/forms.py:44-47 | a goal takes name, target, current amount and deadline from the form and the acting user as owner |
| Forms.GoalFormAllowsNegativeProgress | budget/forms.py:47 | the goal form accepts a negative current amount, so the progress shown can be −50 |
| Reports.TotalOfAppend | budget/views.py:57-58 | a total over two lists is the sum of their totals |
| Reports.TotalOfPermutation | budget/views.py:57-58 | a total does not depend on the order of the transactions |
| Reports.TotalOfAbsent | budget/views.py:57-58 | with no transaction of a kind, that total is 0 |
| Reports.Summarize | budget/views.py:56-59 | total income is the sum of income amounts, total expense the sum of expense amounts, balance their difference |
| Reports.BalanceIsNet | budget/views.py:59 | the balance equals the independent net of income in and expense out |
| Reports.SummaryExample | budget/views.py:56-59 | income 100, expenses 30 and 20 give income 100, expense 50, balance 50 |
| Reports.AddToGroup | budget/views.py:61 | adding an expense to its category's group keeps keys distinct and raises the grand total by exactly the amount |
| Reports.ExpenseGroupsCorrect | budget/views.py:61 | one group per category name among the expenses and no other; each group's total is that category's expense sum; the totals add up to the total expense |
| Reports.ExpenseChartCorrect | budget/views.py:61-63 | labels and values have equal length, the values add up to total expense, each value is the expense total of the category its label names |
| Reports.ChartLabelsDistinct | budget/views.py:61-62 | with non-empty category names other than "Uncategorized", no label appears twice |
| Reports.History | budget/views.py:94-101 | an income or expense history is in listing order and holds exactly the transactions of that kind |
| Reports.RecentAreNewest | budget/views.py:66 | the recent list holds min(5, n) transactions taken from the front of the listing, none listed after one left out |
| Reports.RecentOfLedger | budget/views.py:66 | the recent list is a sub-multiset of the user's transactions, each listed before every one left out |
| Reports.DashboardOfCorrect | budget/views.py:55-73 | the dashboard shows min(5, n) of the user's transactions (a sub-multiset of them), the newest ones, a balance equal to the net, and chart values adding up to the expense total |
| Reports.Export | budget/views.py:168-170 | the header row first, then exactly one row per transaction in order; no transactions give the header only |
| Reports.TypeCodeInjective | budget/models.py:45-48 | the two type codes differ |
| Reports.RecordsTotalOf | budget/views.py:168-170 | summing the Amount column of the rows of one type gives that type's total |
| Reports.HeaderAddsNothing | budget/views.py:168 | the header row adds nothing to a column total |
| Reports.ExportMatchesSummary | budget/views.py:168-170 | reading the export back gives the dashboard's income and expense totals |
| Store.WithUserUpdateConsistent | budget/views.py:248-250 | an accepted account edit (non-empty username not used by another account, email empty or accepted by the validator) keeps usernames unique and the database consistent |
| Store.WithCategories | budget/views.py:26-28 | inserting a sequence of category names gives them consecutive new ids under one owner and leaves every other row as it was |
| Store.WithCategoriesConsistent | budget/views.py:26-28 | distinct, non-empty names the owner does not yet use keep every integrity rule |
| Store.RegisteredConsistent | budget/views.py:17-30 | an accepted registration keeps the database consistent |
| Store.RegisteredShape | budget/views.py:17-30 | registration adds exactly the account, its profile in "Ft" and the five categories Salary, Food, Rent, Books, Party, and the new user owns no other category |
| Store.OwnedIds | budget/views.py:56 | the ids listed are exactly the owner's transactions, in increasing order |
| Store.AdjustedAmount | budget/views.py:187-193 | "add" raises the amount by exactly the given amount with no cap, "subtract" gives max(current − amount, 0), any other action keeps it |
| Store.AdjustRoundTrip | budget/views.py:187-193 | subtracting what was added restores a non-negative amount; adding back what was subtracted restores it exactly when nothing was clamped |
| Store.WriteRows | budget/views.py:167-170 | the rows written one by one are the export of the listing |
| Store.BudgetStore.constructor | budget/models.py:25-30 | a store of existing accounts that have no profile yet, with no other records |
| Store.BudgetStore.Ledger | budget/views.py:56 | the user's transactions: entry i is the stored transaction under the i-th owned id, ids strictly increasing, each owned by the user |
| Store.BudgetStore.LedgerComplete | budget/views.py:56 | in a valid store, every transaction the user owns appears in the ledger under its own id |
| Store.BudgetStore.OwnedCategories | budget/views.py:90 | the category list shows exactly the actor's categories |
| Store.BudgetStore.OwnedGoals | budget/views.py:176 | the savings page shows exactly the actor's goals |
| Store.BudgetStore.GoalProgress | budget/models.py:71-75 | reading a goal's progress changes nothing; another user's goal is not found |
| Store.BudgetStore.AdminUserList | budget/views.py:239-242 | only a superuser gets the list, which holds every account |
| Store.BudgetStore.ExportCsv | budget/views.py:164-171 | the export of the actor's transactions in listing order, one row per transaction plus the header |
| Store.BudgetStore.UserSaved | budget/models.py:20-30 | after an account is saved it has a profile, created with the default currency if missing; nothing else changes |
| Store.BudgetStore.InsertCategory | budget/views.py:28 | one category row is inserted under the next id and the store stays valid |
| Store.BudgetStore.AddDefaultCategories | budget/views.py:26-28 | the loop inserts the five default categories in order under consecutive ids |
| Store.BudgetStore.Register | budget/views.py:17-30 | a refused form changes nothing and reports why; an accepted one produces exactly the registered database |
| Store.BudgetStore.SetCurrency | budget/views.py:78-88 | only "Ft", "$" and the euro code are accepted; a missing profile is created first; any other value changes nothing |
| Store.BudgetStore.AdminEditUser | budget/views.py:244-255 | non-superusers are refused, a missing account is not found, an invalid form changes nothing, otherwise only username, email and active flag change and the profile is backfilled |
| Store.BudgetStore.AdminDeleteUser | budget/views.py:257-267 | non-superusers are refused, a missing account is not found, non-POST and self-deletion change nothing, otherwise the cascade delete of that user |
| Store.BudgetStore.CreateCategory | budget/views.py:105-117 | an empty name or a name the actor already uses saves nothing; otherwise one category owned by the actor is added |
| Store.BudgetStore.DeleteCategory | budget/views.py:120-125 | another user's or a missing category is not found; a POST deletes it and uncategorises its transactions, nothing else |
| Store.BudgetStore.AddTransaction | budget/views.py:129-140 | an invalid form saves nothing; otherwise one transaction owned by the actor is added |
| Store.BudgetStore.EditTransaction | budget/views.py:151-161 | only the actor's own transaction can be edited, and only its form fields change |
| Store.BudgetStore.DeleteTransaction | budget/views.py:143-148 | only the actor's own transaction is deleted, only on POST, and nothing else changes |
| Store.BudgetStore.AddGoal | budget/views.py:204-215 | an invalid form saves nothing; otherwise one goal owned by the actor is added |
| Store.BudgetStore.EditGoal | budget/views.py:218-228 | only the actor's own goal can be edited, and it takes the form's fields |
| Store.BudgetStore.DeleteGoal | budget/views.py:231-236 | only the actor's own goal is deleted, only on POST, and nothing else changes |
| Store.BudgetStore.AdjustSaving | budget/views.py:180-201 | a missing or foreign goal is not found; non-POST, a non-number or a non-positive amount change nothing; otherwise only the goal's current amount changes, to the adjusted amount |

## Left out

- Password hashing, sessions, login and logout (budget/views.py:22-24, 35-51) are calls into the authentication framework; a registration stores no credentials in the model.
- The login and superuser decorators are modelled as the precondition that the actor is an existing account and as the `Forbidden` outcome; the redirect to the login page is not modelled.
- Templates, flash messages, redirects and the HTTP response are not modelled; a GET that only renders a form is not modelled.
- CSV quoting, the response wrapper and the JSON encoding of the chart are serialisation libraries; the export is modelled as a sequence of rows.
- The chart values are converted to floating point for display; the model keeps the exact totals.
- Amounts are integer cents: Decimal's 28-digit context, sub-cent inputs and the 10-digit field limit are not modelled, and the progress percentage is an exact rational.
- Field length limits, whitespace stripping of text fields and the username character validators are not modelled; text fields are only required to be non-empty.
- Parsing of typed form fields (amount, date, transaction type, goal amounts) is not modelled: they arrive parsed, and a savings amount that is not a number arrives as `None`.
- Forms.RegistrationError: when several checks fail at once, the source reports all of them; the model reports the first, in the order missing field, password mismatch, username taken.
- Store.BudgetStore.CreateCategory: a duplicate (owner, name) fails in the source only when the row is saved, as a database integrity error; the model reports it as `DuplicateName` with nothing saved.
- Reports.ExpenseGroupsCorrect: the order of the chart's groups comes from the database's grouping and is unspecified; the model groups in order of first appearance.
- Reports.ExpenseGroupsCorrect: one group per category name assumes Django 3.1 or later, where the transaction model's default ordering (budget/models.py:58-59) is not added to the `values(...).annotate(...)` GROUP BY; on older versions the query yields one row per (name, date, created_at).
- The email validator that Django's `User.email` field (listed at budget/forms.py:11 and 23) runs on a non-empty email is a call into the framework; the model takes its verdict as the `emailValid` field of `RegistrationInput` and `UserUpdateInput`.
- Logging in saves the user's last-login time, which fires the profile backfill of budget/models.py:25-30 for an account without a profile; login is not modelled, so a user without a profile gains one in the model only through the requests that save the account (registration, the administrator's edit, the currency change).
- The database's own id allocation and concurrent requests are not modelled; ids come from one counter per table, and the read-modify-write race on a goal adjustment is out of scope.
- budget/urls.py and budget/admin.py are routing and admin registration with no logic and are not part of this model.
