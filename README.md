# Budget management dashboard — verified model of the client-side logic

The dashboard is a thin React front end over a hosted database. This project
models the logic it runs in the browser, with money as exact reals:

- **Friendly-loan ledger** (`loan_ledger.dfy`). This is the page's `loansByFriend` aggregation.
  - It drops loans without a known friend and groups the rest by friend.
  - It files each loan as given or taken and adds what remains of it unless it is `paid`.
  - It counts active loans, sets `netBalance` in a second pass, and sorts the groups by friend name.
  - Written as methods with loops, each proved against a specification function (`ExpectedGroup`).
- **Loan forms and submission** (`friendly_loans.dfy`):
  - the friend, loan and repayment schemas;
  - the "reuse a friend with that name, else create one" step and the create-or-update choice of `onLoanSubmit`;
  - the remaining-amount line of a loan card.
  - The edit dialog copies the stored row into the form. A loan whose `reason` or `notes` is `null` then fails the schema, which admits only a string or `undefined` there. Such a loan cannot be saved until that field is typed into (`FriendlyLoans.NullTextBlocksSave`).
- **Loans summary card** (`loans_summary.dfy`). It computes total debt, total lent and pending count.
  - Unlike the ledger, it counts paid loans.
  - It also files a loan with an unknown type string nowhere, where the ledger files it as taken.
  - Both differences are proved with concrete loans.
- **Budget helpers** (`helpers.dfy`) and the budget progress card (`budget_progress.dfy`):
  - progress percentage, status band, category colour, days left in the month, percentage change;
  - the card's bar colour, caption and five-row cut.
- **Monthly mood statistics** (`mood_page.dfy`):
  - `getMoodStats` as a counting loop and a first-maximum search, proved against count functions;
  - the description thresholds.
  - The page keeps its own five-mood scale, `happy/good/neutral/bad/awful` (`src/pages/Mood.tsx:20`), records moods from it and scores with a table keyed by it.
  - The shared `MoodType` of `types.ts`, used by the mock moods and by the separate `MoodForm` component, is `happy/neutral/sad/stressed/excited`.
  - The two vocabularies share only `happy` and `neutral`: an entry carrying one of the other three `MoodType` names would score 3 on the page (`MoodPage.FormMoodsScore`).
- **Mock data and display names** (`mock_data.dfy`): `getCategoryName`, `categoryColors`, `budgetVsActualData` and the shape of `mockMoods`.
- **Form validators**:
  - the expense, income, budget and mood forms (`expense_form.dfy`, `income_form.dfy`, `budget_form.dfy`, `mood_form.dfy`);
  - the profile and password schemas and the avatar file name (`profile.dfy`).
- **Shared pieces**:
  - the closed string unions of `types.ts` with their enum parsers (`types.dfy`);
  - `Option` (`wrappers.dfy`).

Conventions:
- A missing optional string is `""` wherever the source only tests it for truthiness (`||`, `!x`). The loan form's `reason`, `notes` and `status` are the exception: there `undefined`, `null` and a string behave differently, so all three are kept apart.
- Dates are integers: a day number, or milliseconds where the source compares `Date` objects.
- The current time, the month's bounds and the random parts are parameters.
- Form validators return the set of fields that carry an error. This follows zod's behaviour:
  - every field is checked;
  - a failed enum or a missing date aborts the object before any `.refine` runs;
  - a failed length or sign check does not abort it.

## Model

| member | source | states |
|---|---|---|
| Types.ParseCategory | src/lib/types.ts:11-21 | accepts a string exactly when it is one of the ten category names, and returns that category |
| Types.ParseCategoryName | src/lib/types.ts:11-21 | parsing a category's name gives the category back |
| Types.CategoriesListed | src/components/forms/ExpenseForm.tsx:19-30 | every category is in the list the forms offer |
| Types.ParseMood | src/lib/types.ts:2 | accepts exactly the five mood names |
| Types.ParsePeriod | src/components/forms/BudgetForm.tsx:31 | accepts exactly `weekly`, `monthly`, `yearly` |
| FriendlyLoans.FriendKey | src/pages/FriendlyLoans.tsx:260 | the joined friend's id when present, else the loan's own `friend_id` |
| FriendlyLoans.SumRepayments | src/pages/FriendlyLoans.tsx:278 | the total of a repayment list; never negative when no repayment is |
| FriendlyLoans.Repaid | src/pages/FriendlyLoans.tsx:278 | a loan without a repayment list has repaid 0; non-negative repayments repay a non-negative amount |
| FriendlyLoans.SumRepaymentsAppend | src/pages/FriendlyLoans.tsx:278 | the repayment sum of two lists joined is the sum of their sums |
| FriendlyLoans.SumRepaymentsPermutation | src/pages/FriendlyLoans.tsx:278 | the repaid amount does not depend on the order of the repayments |
| FriendlyLoans.RemainingOnLoan | src/pages/FriendlyLoans.tsx:278-279 | remaining plus repaid is the amount; a loan without repayments has its whole amount remaining |
| FriendlyLoans.OverpaidIsNegative | src/pages/FriendlyLoans.tsx:279 | repaying `amount + extra` leaves `-extra` |
| FriendlyLoans.IsActive | src/pages/FriendlyLoans.tsx:288-290 | definition only: status `pending` or `partially_paid`; what it counts is stated by `LoanLedger.ActiveLoansCounted` and `LoansSummary.PendingLoans` |
| FriendlyLoans.FindFriend | src/pages/FriendlyLoans.tsx:263 | a friend from the list with that id, or none when no friend has it |
| FriendlyLoans.FindFriendFirst | src/pages/FriendlyLoans.tsx:263 | `find` returns the first friend in list order with that id |
| FriendlyLoans.RemainingLine | src/pages/FriendlyLoans.tsx:517-518 | "Fully Repaid" exactly when the repayments reach the amount, else the positive remainder |
| FriendlyLoans.FriendFormErrors | src/pages/FriendlyLoans.tsx:49-52 | the name and the contact number are each rejected exactly when empty |
| FriendlyLoans.LoanFormErrors | src/pages/FriendlyLoans.tsx:54-73 | each field's error exactly when its rule fails, a `null` reason, notes or status included; the new-friend error is on `new_friend_name` and only when no type error, missing date or `null` aborted the object |
| FriendlyLoans.NewFriendNeedsNameAndContact | src/pages/FriendlyLoans.tsx:65-73 | a new friend without a name or a contact is never accepted, and otherwise-valid forms fail only on `new_friend_name` |
| FriendlyLoans.LoanStatus | src/pages/FriendlyLoans.tsx:64 | an undefined status becomes `pending`; any other value, `null` included, is kept |
| FriendlyLoans.NullTextBlocksSave | src/pages/FriendlyLoans.tsx:62-63 | a form holding a `null` reason or notes, as an edit of such a stored loan does (lines 197-202), is always rejected, on that field, and the new-friend check is not reached |
| FriendlyLoans.DefaultLoanFormRejected | src/pages/FriendlyLoans.tsx:105-110 | the reset values are rejected for the empty friend |
| FriendlyLoans.RepaymentFormErrors | src/pages/FriendlyLoans.tsx:75-79 | a repayment needs a positive amount and a date, and nothing else |
| FriendlyLoans.FindFriendByName | src/pages/FriendlyLoans.tsx:141 | a friend with exactly that name, or none when no friend has it |
| FriendlyLoans.FindFriendByNameUnique | src/pages/FriendlyLoans.tsx:141 | when names are unique, the lookup returns the one friend with that name, whatever order the store uses |
| FriendlyLoans.AcceptedFormHasNewFriend | src/pages/FriendlyLoans.tsx:136-139 | a schema-accepted form never reaches the page's own missing-new-friend guard |
| FriendlyLoans.SubmitLoan | src/pages/FriendlyLoans.tsx:132-177 | see below the table |
| LoanLedger.Kept | src/pages/FriendlyLoans.tsx:260-264 | definition only: the loan has a friend id and that friend is in the list |
| LoanLedger.LoansOf | src/pages/FriendlyLoans.tsx:259-264 | definition only: the kept loans of one friend, in list order; membership is `LoansOfMembers`, concatenation `LoansOfAppend` |
| LoanLedger.LoansOfMembers | src/pages/FriendlyLoans.tsx:259-264 | a loan is in a friend's group exactly when it is in the list, has a friend id, that friend is known, and the id is this one |
| LoanLedger.GivenOnly | src/pages/FriendlyLoans.tsx:281-283 | definition only: the `given` loans in order; see `FiltersMembers` and `FiltersPartition` |
| LoanLedger.TakenOnly | src/pages/FriendlyLoans.tsx:284-286 | definition only: the loans of any other type in order; see `FiltersMembers` and `FiltersPartition` |
| LoanLedger.FiltersMembers | src/pages/FriendlyLoans.tsx:281-287 | `loansGiven` holds exactly the `given` loans, `loansTaken` every other type |
| LoanLedger.FiltersPartition | src/pages/FriendlyLoans.tsx:281-287 | every loan lands in exactly one of the two lists, as often as it occurs |
| LoanLedger.Outstanding | src/pages/FriendlyLoans.tsx:283-286 | a `paid` loan adds nothing; any other adds `amount − repaid` |
| LoanLedger.SumOutstanding | src/pages/FriendlyLoans.tsx:283-286 | definition only: the sum of `Outstanding`; additive by `SumOutstandingAppend` |
| LoanLedger.CountActive | src/pages/FriendlyLoans.tsx:288-290 | never more than the number of loans; what it counts is stated by `CountActiveSplits` and `ActiveLoansCounted` |
| LoanLedger.GroupKeysFacts | src/pages/FriendlyLoans.tsx:266-276 | groups are created without duplicates, one for each friend id that has a kept loan |
| LoanLedger.Accumulated | src/pages/FriendlyLoans.tsx:266-290 | definition only: a friend's group after the first pass, built from `LoansOf`, the two filters and their sums; `AccumulatedAppendOwn`, `AccumulatedAppendOther` and `AccumulatedNone` state how it grows |
| LoanLedger.Settled | src/pages/FriendlyLoans.tsx:293-295 | `netBalance == totalGiven − totalTaken`, and nothing else changes |
| LoanLedger.ExpectedGroup | src/pages/FriendlyLoans.tsx:266-295 | definition only: the settled accumulation of a known friend; `LoansByFriend` is proved to produce it |
| LoanLedger.AccumulatedAppendOther | src/pages/FriendlyLoans.tsx:259-264 | a loan that is not kept for this friend leaves their group unchanged |
| LoanLedger.AccumulatedAppendOwn | src/pages/FriendlyLoans.tsx:278-290 | a loan kept for this friend updates their group exactly as the loop body does |
| LoanLedger.AccumulatedNone | src/pages/FriendlyLoans.tsx:267-275 | a friend with no kept loans has the fresh all-zero group |
| LoanLedger.Insert | src/pages/FriendlyLoans.tsx:297 | inserting keeps every group, adding one |
| LoanLedger.SortByName | src/pages/FriendlyLoans.tsx:297 | sorting is a permutation of the groups |
| LoanLedger.SortByNameSorted | src/pages/FriendlyLoans.tsx:297 | the sorted groups are in ascending order of friend name |
| LoanLedger.SortByNameDistinct | src/pages/FriendlyLoans.tsx:297 | sorting keeps one group per friend |
| LoanLedger.NameLeTotal | src/pages/FriendlyLoans.tsx:297 | any two names compare one way or the other |
| LoanLedger.NameLeTransitive | src/pages/FriendlyLoans.tsx:297 | the name order is transitive |
| LoanLedger.AddLoan | src/pages/FriendlyLoans.tsx:278-290 | the loan is pushed on the list its type selects, its outstanding amount added to that total, and the active count rises by one exactly for pending or partially paid |
| LoanLedger.FileLoan | src/pages/FriendlyLoans.tsx:266-290 | after one kept loan the record still matches the specification for the loans seen so far |
| LoanLedger.GroupByFriend | src/pages/FriendlyLoans.tsx:259-291 | the first pass yields one group per referenced known friend, each equal to the specification's accumulation |
| LoanLedger.SettleGroups | src/pages/FriendlyLoans.tsx:293-295 | the second pass settles every group and nothing else |
| LoanLedger.LoansByFriend | src/pages/FriendlyLoans.tsx:255-298 | empty while loading; otherwise one group per distinct known friend that some loan references, each equal to `ExpectedGroup`, sorted by name |
| LoanLedger.SettledGroupsMatch | src/pages/FriendlyLoans.tsx:293-297 | the settled values carry the group keys in order, one per friend |
| LoanLedger.PermutationKeepsMembers | src/pages/FriendlyLoans.tsx:297 | a reordering keeps the same groups and friend ids |
| LoanLedger.LoansOfAppend | src/pages/FriendlyLoans.tsx:259-264 | grouping distributes over concatenation of the loan list |
| LoanLedger.GivenOnlyAppend | src/pages/FriendlyLoans.tsx:281-283 | the given list of two lists joined is their given lists joined |
| LoanLedger.TakenOnlyAppend | src/pages/FriendlyLoans.tsx:284-286 | likewise for the taken list |
| LoanLedger.CountActiveAppend | src/pages/FriendlyLoans.tsx:288-290 | active counts add over concatenation |
| LoanLedger.SumOutstandingAppend | src/pages/FriendlyLoans.tsx:283-286 | outstanding totals add over concatenation |
| LoanLedger.LoanPlacement | src/pages/FriendlyLoans.tsx:281-287 | a loan is in a group's `loansGiven` iff it is kept for that friend and `given`, in `loansTaken` iff kept and of any other type |
| LoanLedger.LoanContribution | src/pages/FriendlyLoans.tsx:278-290 | wherever a loan sits in the list, it changes its friend's totals and active count by exactly its own contribution, and other groups not at all |
| LoanLedger.CountActiveSplits | src/pages/FriendlyLoans.tsx:288-290 | the active count is the active given loans plus the active taken loans |
| LoanLedger.ActiveLoansCounted | src/pages/FriendlyLoans.tsx:288-290 | `activeLoans` equals the number of the group's listed loans that are pending or partially paid |
| LoanLedger.PaidLoanAddsNothing | src/pages/FriendlyLoans.tsx:283-286 | a `paid` loan changes no total, balance or active count |
| LoanLedger.DroppedLoanIgnored | src/pages/FriendlyLoans.tsx:260-264 | a loan without a known friend changes neither the set of groups nor any group's loans |
| LoanLedger.SingleLoanGroup | src/pages/FriendlyLoans.tsx:266-295 | a group of one loan: its outstanding amount in the total of its direction, net balance plus it when lent and minus it otherwise, one active loan iff it is pending or partially paid |
| LoanLedger.LedgerExample | src/pages/FriendlyLoans.tsx:278-295 | 100 lent: balance 100 and one active; repaid 60: balance 40; paid: 0 and none active; taken and repaid 120: `totalTaken` −20 |
| LoansSummary.OfType | src/components/dashboard/FriendlyLoansSummary.tsx:41-42 | never longer than the list |
| LoansSummary.OfTypeMembers | src/components/dashboard/FriendlyLoansSummary.tsx:41-42 | keeps exactly the loans whose type is the given string |
| LoansSummary.SumRemaining | src/components/dashboard/FriendlyLoansSummary.tsx:44-52 | non-negative when no loan is overpaid |
| LoansSummary.Pending | src/components/dashboard/FriendlyLoansSummary.tsx:54 | never longer than the list |
| LoansSummary.PendingMembers | src/components/dashboard/FriendlyLoansSummary.tsx:54 | keeps exactly the pending and partially paid loans |
| LoansSummary.TotalDebt | src/components/dashboard/FriendlyLoansSummary.tsx:41-47 | 0 without `taken` loans; non-negative when no taken loan is overpaid |
| LoansSummary.TotalLent | src/components/dashboard/FriendlyLoansSummary.tsx:42-52 | 0 without `given` loans; non-negative when no given loan is overpaid |
| LoansSummary.PendingLoans | src/components/dashboard/FriendlyLoansSummary.tsx:54 | at most the number of loans; 0 exactly when none is pending or partially paid |
| LoansSummary.OfTypeAppend | src/components/dashboard/FriendlyLoansSummary.tsx:41-42 | filtering by type distributes over concatenation |
| LoansSummary.SumRemainingAppend | src/components/dashboard/FriendlyLoansSummary.tsx:44-52 | the remaining sums add over concatenation |
| LoansSummary.PendingAppend | src/components/dashboard/FriendlyLoansSummary.tsx:54 | pending counts add over concatenation |
| LoansSummary.EmptySummary | src/components/dashboard/FriendlyLoansSummary.tsx:44-54 | no loans: debt, lent and pending are all 0 |
| LoansSummary.TypeTotalContribution | src/components/dashboard/FriendlyLoansSummary.tsx:41-52 | a loan adds its remainder to the total of its own type and nothing to any other |
| LoansSummary.SummaryContribution | src/components/dashboard/FriendlyLoansSummary.tsx:41-54 | a loan adds its remainder to debt iff `taken`, to lent iff `given`, and 1 to pending iff pending or partially paid; whatever its status |
| LoansSummary.UnrepaidCountsInFull | src/components/dashboard/FriendlyLoansSummary.tsx:49-52 | a lent loan without repayments adds its whole amount |
| LoansSummary.LentVersusOutstanding | src/components/dashboard/FriendlyLoansSummary.tsx:49-52 | the card's sum is the ledger's outstanding sum plus what remains on paid loans |
| LoansSummary.TotalLentDecomposes | src/components/dashboard/FriendlyLoansSummary.tsx:49-52 | total lent is the ledger's outstanding on given loans plus the remainders of paid given loans |
| LoansSummary.SummaryDiffersFromLedger | src/components/dashboard/FriendlyLoansSummary.tsx:41-52 | a paid unrepaid loan of 100 counts 100 on the card and 0 in the ledger; a loan typed `borrowed` counts 0 as debt but 100 as taken in the ledger |
| Helpers.Round | src/lib/helpers.ts:23 | the nearest integer, ties going up |
| Helpers.RoundMonotone | src/lib/helpers.ts:23 | rounding is monotone |
| Helpers.BudgetProgress | src/lib/helpers.ts:20-24 | 0 for a zero total; never above 100; otherwise the rounded percentage, or 100 when that reaches 100 |
| Helpers.BudgetProgressMonotone | src/lib/helpers.ts:22-23 | for a fixed positive total, more spent never shows less progress |
| Helpers.BudgetProgressRange | src/lib/helpers.ts:20-24 | non-negative spending on a positive total gives 0..100 |
| Helpers.OverspentShowsFull | src/lib/helpers.ts:23 | spending past a positive total shows 100 |
| Helpers.BudgetStatusColor | src/lib/helpers.ts:27-33 | low iff ≥ 90, medium iff 75..89, high iff < 75 |
| Helpers.BudgetStatusColorMonotone | src/lib/helpers.ts:27-33 | more spending on the same budget only moves the band towards low |
| Helpers.CategoryColor | src/lib/helpers.ts:36-38 | the table colour for a category name, `#607D8B` for anything else |
| Helpers.LastDayOfMonth | src/lib/helpers.ts:48 | 28..31; February has 29 exactly in leap years |
| Helpers.DaysLeftInMonth | src/lib/helpers.ts:46-50 | day plus days left is the month's length; 0..30; 0 exactly on the last day |
| Helpers.PercentageChange | src/lib/helpers.ts:53-56 | 100 from zero; otherwise the rounded relative change |
| Helpers.PercentageChangeUnchanged | src/lib/helpers.ts:54-55 | an unchanged non-zero amount is 0% |
| Helpers.PercentageChangeExamples | src/lib/helpers.ts:55 | doubling is +100%, halving −50% |
| BudgetProgressCard.ProgressColor | src/components/dashboard/BudgetProgress.tsx:21-26 | definition only: the bar class for a percentage; `ProgressColorMatchesStatusColor` ties it to the helper's band |
| BudgetProgressCard.ProgressColorMatchesStatusColor | src/components/dashboard/BudgetProgress.tsx:21-26 | the card's bar colour is the band `getBudgetStatusColor` gives |
| BudgetProgressCard.RemainingText | src/components/dashboard/BudgetProgress.tsx:42-46 | "Over by" exactly for a negative remainder, always showing a non-negative figure that gives the remainder back |
| BudgetProgressCard.Row | src/components/dashboard/BudgetProgress.tsx:17-46 | a row's percentage is the helper's, its bar class is the band `getBudgetStatusColor` gives the budget, and it says "Over by" exactly when spent exceeds the amount |
| BudgetProgressCard.Rows | src/components/dashboard/BudgetProgress.tsx:17 | at most the first five budgets, in order |
| BudgetProgressCard.OverspentRow | src/components/dashboard/BudgetProgress.tsx:18-46 | an overspent budget shows 100%, the low colour and "Over by" the excess |
| MockData.CategoryColors | src/lib/mock-data.ts:238-249 | the colour table; its properties are `CategoryColorsTotal` and `CategoryColorsKeys` |
| MockData.CategoryColorsTotal | src/lib/mock-data.ts:238-249 | every category has a seven-character `#` colour |
| MockData.CategoryColorsKeys | src/lib/mock-data.ts:238-249 | the table's keys are exactly the category names, none mapped to an empty colour |
| MockData.UpperChar | src/lib/mock-data.ts:269 | upper-cases a lower-case ASCII letter, leaves others |
| MockData.CategoryDisplayName | src/lib/mock-data.ts:268-270 | same length, characters after the first unchanged, the first replaced by its upper-case form |
| MockData.CategoryDisplayNameIdempotent | src/lib/mock-data.ts:269 | capitalising twice is capitalising once |
| MockData.CategoryDisplayNameOfCategory | src/lib/mock-data.ts:268-270 | each category's label is its name with a capital first letter |
| MockData.BudgetVsActual | src/lib/mock-data.ts:288-292 | one row per budget, in order, with its display name, amount and spent |
| MockData.BudgetVsActualLabels | src/lib/mock-data.ts:288-292 | each chart label reads back to its budget's category |
| MockData.MockMoods | src/lib/mock-data.ts:179-189 | thirty entries, entry i dated i days back, with a note exactly when i is a multiple of 5 |
| MockData.MockMoodsNoteCount | src/lib/mock-data.ts:187 | six of the thirty entries have a note |
| MoodPage.Score | src/pages/Mood.tsx:89-99 | scores are 1..5; any mood outside the table scores 3 |
| MoodPage.FormMoodsScore | src/pages/Mood.tsx:89-99 | of the five `MoodType` names of `types.ts` only `happy` scores other than 3 on the page's scale |
| MoodPage.ThisMonth | src/pages/Mood.tsx:79-82 | never longer than the list |
| MoodPage.ThisMonthCounts | src/pages/Mood.tsx:79-82 | each entry dated within the month is kept as many times as it occurs, and no other entry is kept |
| MoodPage.ThisMonthAppend | src/pages/Mood.tsx:79-82 | the filter keeps the list's order: filtering two lists joined joins their filtered lists |
| MoodPage.DistinctKeys | src/pages/Mood.tsx:97-98 | the dictionary's keys are the moods that occur, each once |
| MoodPage.CountMoods | src/pages/Mood.tsx:86-100 | each key's count is the number of its entries, and the score is the sum of scores |
| MoodPage.FirstMostFrequent | src/pages/Mood.tsx:102-104 | picks a key with the largest count, the first such in key order |
| MoodPage.TopOfCounts | src/pages/Mood.tsx:102-104 | the picked key is the top mood |
| MoodPage.TopMoodUnique | src/pages/Mood.tsx:102-104 | there is only one top mood |
| MoodPage.GetMoodStats | src/pages/Mood.tsx:72-111 | nothing this month: zero stats; else the entry count, the average score in 1..5, and a most frequent mood |
| MoodPage.ScoreBounds | src/pages/Mood.tsx:99 | the total score lies between the entry count and five times it |
| MoodPage.AverageBounds | src/pages/Mood.tsx:109 | the average of such a total lies in 1..5 |
| MoodPage.SumCountsAppend | src/pages/Mood.tsx:97-98 | one more entry raises the counts' sum by one when its mood is a key |
| MoodPage.CountsSumToTotal | src/pages/Mood.tsx:86-107 | the per-mood counts add up to the number of entries |
| MoodPage.AllHappyScoresFive | src/pages/Mood.tsx:89-99 | a month of happy entries scores 5 each |
| MoodPage.MoodDescription | src/pages/Mood.tsx:115-121 | each label is given exactly above its strict threshold and at or below the next |
| MoodPage.MoodDescriptionMonotone | src/pages/Mood.tsx:115-121 | a higher score never gets a lower label |
| Profile.ProfileErrors | src/pages/Profile.tsx:51-54 | the name must be 2..50 characters; the email flag decides the email |
| Profile.PasswordErrors | src/pages/Profile.tsx:56-63 | current ≥ 6; new and confirm 8..50; a mismatch is an error on the confirmation |
| Profile.PasswordChangeAccepted | src/pages/Profile.tsx:56-63 | accepted exactly when the lengths are in range and the new passwords agree |
| Profile.MismatchRejected | src/pages/Profile.tsx:60-63 | mismatched passwords are always rejected, on `confirmPassword` |
| Profile.Split | src/pages/Profile.tsx:239 | at least one piece, none containing the separator |
| Profile.JoinExtendLast | src/pages/Profile.tsx:239 | a character added to the last piece is added to the end of the join |
| Profile.SplitJoin | src/pages/Profile.tsx:239 | joining the pieces gives the name back |
| Profile.FileExtension | src/pages/Profile.tsx:239 | the extension never contains a dot |
| Profile.ExtensionAfterLastDot | src/pages/Profile.tsx:239 | the extension is the text after the last dot, empty for a name ending in a dot |
| Profile.ExtensionWithoutDot | src/pages/Profile.tsx:239 | a name without a dot is its own extension |
| Profile.AvatarPath | src/pages/Profile.tsx:240 | the stored path keeps the uploaded file's extension |
| ExpenseForm.OfferedCategoriesAccepted | src/components/forms/ExpenseForm.tsx:19-35 | the select list offers exactly the names the schema accepts |
| ExpenseForm.ExpenseErrors | src/components/forms/ExpenseForm.tsx:32-38 | amount > 0, a known category, a description of 3 or more characters, a date; each error exactly when its rule fails |
| ExpenseForm.DefaultExpenseRejected | src/components/forms/ExpenseForm.tsx:45-50 | an untouched form fails on amount and description and nothing else |
| ExpenseForm.SubmitExpense | src/components/forms/ExpenseForm.tsx:53-60 | a record exactly when the form is valid, carrying its values |
| ExpenseForm.DateDisabled | src/components/forms/ExpenseForm.tsx:167-169 | definition only: the calendar disables days after now or before 1900; see the two lemmas below |
| ExpenseForm.SelectableLater | src/components/forms/ExpenseForm.tsx:167-169 | a day the calendar lets the user pick now stays pickable at any later time |
| ExpenseForm.DisabledDateNotValidated | src/components/forms/ExpenseForm.tsx:37 | the schema's `z.date()` checks presence only: a date the calendar disables raises no date error and is submitted as is |
| ExpenseForm.DefaultDateSelectable | src/components/forms/ExpenseForm.tsx:49 | the default date, now, can be picked |
| IncomeForm.IncomeErrors | src/components/forms/IncomeForm.tsx:13-17 | amount > 0 and a known period; the source never fails |
| IncomeForm.IncomeDefaults | src/components/forms/IncomeForm.tsx:33-45 | the income's amount or 0, its source or `""`, its period or `monthly`, the period not checked; 0, `""` and `monthly` when there is no income |
| IncomeForm.SubmitIncome | src/components/forms/IncomeForm.tsx:49-70 | nothing unless valid; an update of the income's id exactly when editing, else a create; the same three fields either way |
| IncomeForm.NewIncomeDefaultsRejected | src/components/forms/IncomeForm.tsx:33-35 | an empty new-income form fails on its amount alone |
| IncomeForm.UntouchedEditWritesBack | src/components/forms/IncomeForm.tsx:28-63 | saving a valid stored income untouched updates it with its own values |
| BudgetForm.OfferedCategoriesAccepted | src/components/forms/BudgetForm.tsx:14-30 | the select list offers exactly the names the schema accepts |
| BudgetForm.BudgetErrors | src/components/forms/BudgetForm.tsx:27-32 | amount > 0, a known category and a known period; each error exactly when its rule fails |
| BudgetForm.DefaultBudgetRejected | src/components/forms/BudgetForm.tsx:39-43 | the untouched form fails on its amount alone |
| BudgetForm.CreateBudget | src/components/forms/BudgetForm.tsx:46-58 | a budget exactly when valid, with the form's values and `current_amount` 0 |
| BudgetForm.NewBudgetUntouched | src/components/forms/BudgetForm.tsx:48-53 | a new budget shows 0% progress and the healthy band |
| MoodForm.MoodEmojis | src/components/forms/MoodForm.tsx:21-27 | the emoji table; its properties are `MoodEmojisTotal` |
| MoodForm.MoodEmojisTotal | src/components/forms/MoodForm.tsx:21-27 | an emoji for every mood, for nothing else, and all different |
| MoodForm.MoodRejected | src/components/forms/MoodForm.tsx:14-17 | rejected exactly when the mood is none of the five |
| MoodForm.SubmitMood | src/components/forms/MoodForm.tsx:38-44 | an entry exactly when valid, with its mood, the note or `""`, and the submission time |
| MoodForm.DefaultMoodAccepted | src/components/forms/MoodForm.tsx:30-44 | the untouched form records a neutral mood with an empty note |

`FriendlyLoans.SubmitLoan` states the following:
- A new friend without a name or a contact does nothing.
- Otherwise:
  - the payload is the form's;
  - the loan is updated when one is being edited and created otherwise;
  - a chosen friend id is used as it is;
  - with `__new__`, a friend with that exact name is reused and the list is left alone;
  - failing that, exactly one friend is added and its id is used;
  - friend names and ids stay unique.

## Left out

- Loan status is an input. The service that would derive it from repayments is not part of this model.
- The following make no decisions and are not modelled:
  - all database, authentication and storage calls (the hosted client, `getUser`, uploads, `isLoggedIn`); friend lookup and creation are operations on a friend list, and the id of a created friend is a parameter;
  - react-query caching and invalidation, toasts, dialogs, JSX rendering, routing, charts, the theme provider and the mobile tab bar;
  - Tasks, TasksList, MoodTracker and IncomeCard (one filter or label map over fixtures each).
- The following are inputs rather than models:
  - `formatCurrency`, `formatDate` and zod's `.email()`. The email check is a boolean input;
  - the date-fns current-month test, given as the month's first and last timestamps.
- `Math.random`, `generateRandomId` and `getRandomDate` are parameters or functions passed in.
- Numbers are exact reals. IEEE rounding, `NaN` from `z.coerce.number()` and `Number(...)` on bad strings are not modelled.
- LoanLedger.SortByName: `localeCompare` is modelled as code-unit lexicographic order, so locale collation is not captured. The order among groups with equal names is not stated.
- MockData.UpperChar: `toUpperCase` is modelled on ASCII letters only.
- String lengths are counted in code units (`char`), as JavaScript counts them.
- MoodPage.CountMoods: JavaScript object key order puts integer-like keys first, and inherited `Object.prototype` names are not modelled. Mood strings are treated as ordinary keys kept in insertion order.
- The avatar file name's random part is an opaque string parameter.
- `formatCategory` only calls `getCategoryName` (MockData.CategoryDisplayName) and has no member of its own.
