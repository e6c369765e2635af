# FinanceManager ledger core in Dafny

This project models the core of FinanceManager, a personal-finance application with two halves. The back end is Spring services over JPA repositories. The front end is React pages over those services.

## What is modelled

**Back end.**
- The four services:
  - `ExpenseService`: create, update, list and delete; the totals of the current week, month and year; the monthly and weekly breakdowns.
  - `DebtService` and `LoanService`: create, list, update and delete.
  - `UserService`: register, and find by username.
- The repositories they call. Each is a class holding a map from id to record (`Store`).
- The parts of `java.time` the expense service relies on (`Calendar`):
  - day numbers, weekdays, `with(DayOfWeek.MONDAY)`, `withDayOfMonth(1)`, `withDayOfYear(1)` and `plusDays`;
  - the `MMM d` rendering and the upper-case month name.
- The two `groupingBy` collectors (`Tally`). The monthly one collects into a hash map; it is modelled as an insertion-ordered list of entries. The weekly one collects into a `TreeMap`, modelled as a list kept in ascending key order.

**Front end.**
- The five pages are classes whose fields are the components' `useState` variables. Each handler is a method:
  - `Loans`: id-based delete after a confirmation, and the edit modal.
  - `Debts`, `Expenses`: arrow-key paging.
  - `Analytics`: one `Promise.all` load that fills three charts.
  - `DashboardPage`: three counters.
- What every render derives from that state is a function: the sort, the search, the page count, the page slice and the total. The rules the three ledger pages share sit in `Ledger` and are proved once:
  - the entry checks and the order they run in;
  - the stable newest-first sort, which is a permutation;
  - the case-insensitive counterparty search;
  - the pages, which partition the listing;
  - arrow-key paging, which stays within range.

**Outside the model.** Anything the code gets from outside becomes a parameter of the method that uses it:
- server answers, and whether a request succeeded;
- the user's confirmation;
- the current time;
- ids the store generates;
- the password encoder.

**Behaviour of the code worth knowing, as the model has it.**
- The pages never clamp `currentPage` to `[1, totalPages]`, and they do not guarantee at least one page.
  - The debts and expenses pages show `page 1 of 0` for an empty list (`DebtsPage.Debts.TotalPages`, `ExpensesPage.Expenses.TotalPages`).
  - The loans page shows `totalPages || 1` (`LoansPage.Loans.PageLabel`).
- The expenses page counts pages over all fetched expenses. It has no search.
- Editing a loan runs none of the create checks.
- The breakdowns behave as follows, as the code has them:
  - the monthly breakdown merges the same month of different years (`ExpenseService.MonthOfMerges`);
  - the weekly labels name no year (`ExpenseService.WeeksOfDifferentYearsShareABucket`);
  - the weekly labels sort as strings, not as dates (`ExpenseService.WeeklyOrderIsNotChronological`).

## Model

| member | source | states |
|---|---|---|
| Store.Repository.FindById | backend/src/main/java/com/FinanceManager/backend/service/ExpenseService.java:36-37 | answers the record stored under the id, or nothing when the id is absent |
| Store.Repository.ExistsById | backend/src/main/java/com/FinanceManager/backend/service/ExpenseService.java:53 | answers true exactly when a record is stored under the id |
| Store.Repository.FindByUserId | backend/src/main/java/com/FinanceManager/backend/repository/ExpenseRepository.java:13 | the loop's answer is the user's listing: exactly the stored records of that user, each once |
| Store.OfUserFacts | backend/src/main/java/com/FinanceManager/backend/repository/DebtRepository.java:10 | a record is listed for a user iff it is stored and belongs to that user, and no record is listed twice |
| Store.ScanAscending | backend/src/main/java/com/FinanceManager/backend/repository/ExpenseRepository.java:13 | the listing is in strictly ascending id order |
| Store.Repository.Save | backend/src/main/java/com/FinanceManager/backend/service/ExpenseService.java:32 | the record is stored under its own id, replacing any record there, and every record stays under its own id |
| Store.Repository.DeleteById | backend/src/main/java/com/FinanceManager/backend/service/ExpenseService.java:56 | exactly that id is removed |
| Store.UserRepository.FindById | backend/src/main/java/com/FinanceManager/backend/service/ExpenseService.java:29-30 | the user stored under the id, or nothing |
| Store.UserRepository.FindByUsername | backend/src/main/java/com/FinanceManager/backend/service/UserService.java:21 | a found user is stored under its id with that name; nothing is found iff no stored user has the name |
| Store.UserRepository.Save | backend/src/main/java/com/FinanceManager/backend/service/UserService.java:27 | the user is stored under its id |
| Store.SaveNewListing | backend/src/main/java/com/FinanceManager/backend/service/ExpenseService.java:28-33 | saving under a new id adds that record to its owner's listing and to no other listing |
| Store.ReplaceListing | backend/src/main/java/com/FinanceManager/backend/service/ExpenseService.java:35-46 | overwriting a record's fields, keeping its id and owner, swaps it for the new version in its owner's listing and changes no other listing |
| Store.DeleteListing | backend/src/main/java/com/FinanceManager/backend/service/ExpenseService.java:52-57 | deleting an id removes that record, and nothing else, from every listing |
| ExpenseService.ExpenseService.CreateExpense | backend/src/main/java/com/FinanceManager/backend/service/ExpenseService.java:28-33 | an unknown user fails with MissingUser and saves nothing; otherwise the expense is saved, owned by the user, under the new id; ownership is kept |
| ExpenseService.ExpenseService.UpdateExpense | backend/src/main/java/com/FinanceManager/backend/service/ExpenseService.java:35-46 | an unknown id fails and changes nothing; otherwise the five fields come from the details while the id and the owner stay |
| ExpenseService.ExpenseService.GetUserExpenses | backend/src/main/java/com/FinanceManager/backend/service/ExpenseService.java:48-50 | an expense is answered iff it is stored and belongs to the user |
| ExpenseService.ExpenseService.DeleteExpense | backend/src/main/java/com/FinanceManager/backend/service/ExpenseService.java:52-57 | an unknown id fails and deletes nothing; otherwise exactly that expense is removed |
| ExpenseService.ExpenseService.SumBetween | backend/src/main/java/com/FinanceManager/backend/repository/ExpenseRepository.java:14-15 | the loop's total is the sum of the user's expenses dated from start to end, both included |
| ExpenseService.CurrentWeek | backend/src/main/java/com/FinanceManager/backend/service/ExpenseService.java:70 | the range starts on a Monday no more than six days before today and ends today |
| ExpenseService.CurrentMonth | backend/src/main/java/com/FinanceManager/backend/service/ExpenseService.java:63 | the range starts on the first of today's month and ends today |
| ExpenseService.CurrentYear | backend/src/main/java/com/FinanceManager/backend/service/ExpenseService.java:78 | the range starts on January 1 of today's year and ends today |
| ExpenseService.InCurrentWeek | backend/src/main/java/com/FinanceManager/backend/service/ExpenseService.java:68-72 | a day is in the week's range iff it has today's Monday and is not after today |
| ExpenseService.InCurrentMonth | backend/src/main/java/com/FinanceManager/backend/service/ExpenseService.java:59-66 | a day is in the month's range iff it is in today's year and month, on or before today's day |
| ExpenseService.InCurrentYear | backend/src/main/java/com/FinanceManager/backend/service/ExpenseService.java:74-81 | a day is in the year's range iff it is in today's year and not after today |
| ExpenseService.ExpenseService.CurrentWeekExpenses | backend/src/main/java/com/FinanceManager/backend/service/ExpenseService.java:68-72 | the total of the user's expenses from this week's Monday to today |
| ExpenseService.ExpenseService.CurrentMonthExpenses | backend/src/main/java/com/FinanceManager/backend/service/ExpenseService.java:59-66 | the total of the user's expenses from the first of the month to today |
| ExpenseService.ExpenseService.CurrentYearExpenses | backend/src/main/java/com/FinanceManager/backend/service/ExpenseService.java:74-81 | the total of the user's expenses from January 1 to today |
| ExpenseService.ExpenseService.MonthlyBreakdown | backend/src/main/java/com/FinanceManager/backend/service/ExpenseService.java:83-90 | one key per month name that occurs; each key holds the total of its expenses; the values add up to all the user's spending |
| ExpenseService.MonthOfMerges | backend/src/main/java/com/FinanceManager/backend/service/ExpenseService.java:87 | two expenses share a monthly key iff they fall in the same month, whatever their years |
| ExpenseService.ExpenseService.WeeklyBreakdown | backend/src/main/java/com/FinanceManager/backend/service/ExpenseService.java:92-109 | keys in ascending string order, one per week label that occurs; each holds the total of its expenses; the values add up to all the user's spending |
| ExpenseService.WeekOfExpense | backend/src/main/java/com/FinanceManager/backend/service/ExpenseService.java:99-105 | an expense's week label is its Monday and its Sunday in `MMM d`, joined by an en dash |
| ExpenseService.WeekOfJuly14Of2025 | backend/src/test/java/com/FinanceManager/backend/ExpenseServiceTest.java:165-171 | the days from 2025-07-14 to 2025-07-20 carry the label "Jul 14 – Jul 20" |
| ExpenseService.WeekOfJuly21Of2025 | backend/src/test/java/com/FinanceManager/backend/ExpenseServiceTest.java:173-175 | the days from 2025-07-21 to 2025-07-27 carry the label "Jul 21 – Jul 27" |
| ExpenseService.WeekOfJuly28Of2025 | backend/src/main/java/com/FinanceManager/backend/service/ExpenseService.java:101-104 | the days from July 28 2025 to the end of July carry the month-crossing label "Jul 28 – Aug 3" |
| ExpenseService.WeekOfAugust4Of2025 | backend/src/main/java/com/FinanceManager/backend/service/ExpenseService.java:101-104 | the days from 2025-08-04 to 2025-08-10 carry the label "Aug 4 – Aug 10" |
| ExpenseService.WeekOfJuly14Of2031 | backend/src/main/java/com/FinanceManager/backend/service/ExpenseService.java:101-104 | the days from 2031-07-14 to 2031-07-20 also carry "Jul 14 – Jul 20" |
| ExpenseService.WeeklyTestExample | backend/src/test/java/com/FinanceManager/backend/ExpenseServiceTest.java:162-186 | 10 and 20 in the week of July 14 2025 and 50 the next Monday give exactly the buckets "Jul 14 – Jul 20" = 30 and "Jul 21 – Jul 27" = 50 |
| ExpenseService.WeeklyOrderIsNotChronological | backend/src/main/java/com/FinanceManager/backend/service/ExpenseService.java:104-106 | the week of August 4 2025 is listed before the earlier week of July 28 2025 |
| ExpenseService.WeeksOfDifferentYearsShareABucket | backend/src/main/java/com/FinanceManager/backend/service/ExpenseService.java:99-107 | July 14 of 2025 and of 2031 fall in one bucket holding both amounts |
| DebtService.DebtService.CreateDebt | backend/src/main/java/com/FinanceManager/backend/service/DebtService.java:21-26 | an unknown user fails and saves nothing; otherwise the debt is saved, owned by the user, under the new id |
| DebtService.DebtService.GetUserDebts | backend/src/main/java/com/FinanceManager/backend/service/DebtService.java:28-30 | a debt is answered iff it is stored and belongs to the user |
| DebtService.DebtService.UpdateDebt | backend/src/main/java/com/FinanceManager/backend/service/DebtService.java:33-43 | an unknown id fails and changes nothing; otherwise the four fields come from the details while the id and the owner stay |
| DebtService.DebtService.DeleteDebt | backend/src/main/java/com/FinanceManager/backend/service/DebtService.java:45-50 | an unknown id fails and deletes nothing; otherwise exactly that debt is removed |
| LoanService.LoanService.CreateLoan | backend/src/main/java/com/FinanceManager/backend/service/LoanService.java:21-26 | an unknown user fails and saves nothing; otherwise the loan is saved, owned by the user, under the new id |
| LoanService.LoanService.GetUserLoans | backend/src/main/java/com/FinanceManager/backend/service/LoanService.java:28-30 | a loan is answered iff it is stored and belongs to the user |
| LoanService.LoanService.UpdateLoan | backend/src/main/java/com/FinanceManager/backend/service/LoanService.java:33-43 | an unknown id fails and changes nothing; otherwise the four fields come from the details while the id and the owner stay |
| LoanService.LoanService.DeleteLoan | backend/src/main/java/com/FinanceManager/backend/service/LoanService.java:45-50 | an unknown id fails and deletes nothing; otherwise exactly that loan is removed |
| UserService.RegisterKeepsUnique | backend/src/main/java/com/FinanceManager/backend/service/UserService.java:20-29 | adding a user with an untaken name under a fresh id keeps usernames unique and adds exactly one user |
| UserService.UserService.RegisterUser | backend/src/main/java/com/FinanceManager/backend/service/UserService.java:20-29 | a taken name fails with UserAlreadyExists and saves nothing; otherwise a user with the name and the encoded password is saved and its id and name are answered; names stay unique |
| UserService.UserService.FindByUsername | backend/src/main/java/com/FinanceManager/backend/service/UserService.java:31-33 | answers the one stored user of that name; fails with UsernameNotFound iff no user has it |
| UserService.RegistrationScenario | backend/src/test/java/com/FinanceManager/backend/AuthFlowIntegrationTest.java:42-77 | "testuser123" registers and is found with the encoded password; a second registration of the name is refused and the store keeps the one user |
| Text.LtStrictTotal | backend/src/main/java/com/FinanceManager/backend/service/ExpenseService.java:106 | string order is irreflexive and total on distinct strings, as a `TreeMap<String, _>` needs |
| Text.LtTransitive | backend/src/main/java/com/FinanceManager/backend/service/ExpenseService.java:106 | string order is transitive |
| Text.ContainsAt | frontend/src/components/Loans.jsx:190 | `includes` holds iff the needle occurs at some position |
| Text.DatePart | frontend/src/components/Loans.jsx:149 | the part before the first 'T' is a prefix without 'T', cut exactly at a 'T' |
| Text.Digits | backend/src/main/java/com/FinanceManager/backend/service/ExpenseService.java:95 | the `d` field prints decimal digits without a leading zero |
| Text.DigitsRoundTrip | backend/src/main/java/com/FinanceManager/backend/service/ExpenseService.java:95 | reading the printed digits back gives the number |
| Calendar.FromOrd | backend/src/main/java/com/FinanceManager/backend/service/ExpenseService.java:100-102 | every day number names a valid date with that number |
| Calendar.FromOrdOrd | backend/src/main/java/com/FinanceManager/backend/service/ExpenseService.java:100-102 | `FromOrd` undoes `Ord` on every valid date |
| Calendar.OrdOrder | backend/src/main/java/com/FinanceManager/backend/repository/ExpenseRepository.java:14 | day numbers order dates by year, then month, then day, as `BETWEEN` compares them |
| Calendar.OrdInjective | backend/src/main/java/com/FinanceManager/backend/repository/ExpenseRepository.java:14 | distinct dates have distinct day numbers |
| Calendar.WeekStart | backend/src/main/java/com/FinanceManager/backend/service/ExpenseService.java:101 | the result is a Monday no more than six days before the date |
| Calendar.SameWeekStart | backend/src/main/java/com/FinanceManager/backend/service/ExpenseService.java:101 | two dates have the same Monday iff their day numbers fall in the same block of seven |
| Calendar.PlusDays | backend/src/main/java/com/FinanceManager/backend/service/ExpenseService.java:102 | the result is a valid date exactly k days later |
| Calendar.MonthStart | backend/src/main/java/com/FinanceManager/backend/service/ExpenseService.java:63 | the first day of the date's month: no later than the date or than any day of that month |
| Calendar.YearStart | backend/src/main/java/com/FinanceManager/backend/service/ExpenseService.java:78 | the first day of the date's year: no later than the date or than any day of that year |
| Calendar.MonthName | backend/src/main/java/com/FinanceManager/backend/service/ExpenseService.java:87 | the month constant's name, long enough to take three letters from |
| Calendar.MonthKeyInjective | backend/src/main/java/com/FinanceManager/backend/service/ExpenseService.java:87 | the twelve months give twelve different three-letter keys |
| Calendar.SameWeekSameLabel | backend/src/main/java/com/FinanceManager/backend/service/ExpenseService.java:99-105 | dates of one Monday-to-Sunday week share a label |
| Calendar.WeekLabelFrom | backend/src/main/java/com/FinanceManager/backend/service/ExpenseService.java:99-105 | a date's Monday is the Monday of its block of seven, and its label is that Monday and the Sunday after |
| Tally.Get | frontend/src/components/Analytics.jsx:43 | an absent key reads as 0 |
| Tally.Add | frontend/src/components/Analytics.jsx:43 | an existing key keeps its place and a new key goes last; only the key's total grows, by the amount; the grand total grows by the amount |
| Tally.Group | frontend/src/components/Analytics.jsx:40-44 | keys in first-seen order; each key holds the total of its items; the values add up to the total of all items |
| Tally.GroupKeys | backend/src/main/java/com/FinanceManager/backend/service/ExpenseService.java:85-89 | a key is present iff some item has it |
| Tally.GroupDistinct | backend/src/main/java/com/FinanceManager/backend/service/ExpenseService.java:85-89 | no key occurs twice |
| Tally.AddSorted | backend/src/main/java/com/FinanceManager/backend/service/ExpenseService.java:106-107 | `merge` into a `TreeMap` keeps keys strictly ascending, adds only the key, grows only its total, and grows the grand total by the amount |
| Tally.InsertFirst | backend/src/main/java/com/FinanceManager/backend/service/ExpenseService.java:106 | a key below the first key of an ascending map goes in front and was not there before |
| Tally.InsertLater | backend/src/main/java/com/FinanceManager/backend/service/ExpenseService.java:106 | a key above the first key goes after it and the map still ascends |
| Tally.GroupSorted | backend/src/main/java/com/FinanceManager/backend/service/ExpenseService.java:97-108 | keys strictly ascending, present iff some item has them; each holds the total of its items; the values add up to the total |
| Tally.FirstSeen | frontend/src/pages/DashboardPage.jsx:33 | the same elements without repeats |
| Tally.FirstSeenCount | frontend/src/pages/DashboardPage.jsx:33-34 | the number of distinct elements, no more than the length |
| Tally.DistinctCount | frontend/src/pages/DashboardPage.jsx:33-34 | a list without repeats has as many distinct elements as it is long |
| Tally.SumOfAppend | frontend/src/components/Analytics.jsx:54 | the sum of two lists joined is the sum of their sums |
| Tally.SumAmountsCons | frontend/src/components/Loans.jsx:193 | summing from the front gives what `reduce` gives from the back |
| Ledger.CheckEntry | frontend/src/components/Loans.jsx:105-118 | "fill in all fields" iff a field is blank; otherwise "positive" iff the amount is at most 0; otherwise "future" iff the date is after today; the entry is posted iff all three checks pass |
| Ledger.FilterMembers | frontend/src/components/Loans.jsx:190 | `filter` keeps exactly the passing elements, none more often than before |
| Ledger.FilterCounts | frontend/src/components/Loans.jsx:190 | `filter` keeps each passing element exactly as often as it occurs, and no failing element |
| Ledger.FilterInOrder | frontend/src/components/Loans.jsx:190 | `filter` reads its result off the passing positions, which rise strictly and include every passing position: the survivors keep their order |
| Ledger.FilterKeepsAll | frontend/src/components/Loans.jsx:190 | a filter that everything passes changes nothing |
| Ledger.Insert | frontend/src/components/Loans.jsx:189 | inserting into a newest-first list keeps it newest first and adds exactly that entry |
| Ledger.InsertInFront | frontend/src/components/Loans.jsx:189 | an entry no older than the head goes in front and the list stays newest first |
| Ledger.HeadStaysFirst | frontend/src/components/Loans.jsx:189 | an entry older than the head goes after it and the list stays newest first |
| Ledger.InsertOnDate | frontend/src/components/Loans.jsx:189 | inserting puts the entry first among its own date and leaves other dates alone |
| Ledger.SortNewestFirst | frontend/src/components/Loans.jsx:189 | newest first, and a permutation of the fetched list |
| Ledger.SortIsStable | frontend/src/components/Loans.jsx:189 | entries of one date keep their fetched order |
| Ledger.SortKeepsTotal | frontend/src/components/Loans.jsx:189-193 | sorting leaves the total unchanged |
| Ledger.InsertAddsAmount | frontend/src/components/Loans.jsx:193 | inserting an entry adds its amount to the total |
| Ledger.Search | frontend/src/components/Loans.jsx:190 | exactly the entries whose counterparty contains the term, ignoring case, each as often as it was fetched |
| Ledger.SearchEmptyTerm | frontend/src/components/Loans.jsx:190 | an empty search keeps every entry in order |
| Ledger.FilterNewestFirst | frontend/src/components/Loans.jsx:189-190 | filtering a newest-first list keeps it newest first |
| Ledger.Listing | frontend/src/components/Loans.jsx:189-190 | the listing is newest first and holds exactly the fetched entries that match, each as often as it was fetched |
| Ledger.ListingTotal | frontend/src/components/Loans.jsx:189-193 | for any search, the listing's total is the total of the matching entries in fetched order |
| Ledger.ListingWithoutSearch | frontend/src/components/Loans.jsx:189-190 | with an empty search the listing is the whole sorted list |
| Ledger.TotalWithoutSearch | frontend/src/components/Loans.jsx:189-193 | with an empty search the total is the total of every fetched entry |
| Ledger.PageCount | frontend/src/components/Loans.jsx:191 | `Math.ceil(n / k)`: the fewest pages that hold n entries; 0 iff n is 0 |
| Ledger.Window | frontend/src/components/Loans.jsx:192 | `slice(lo, lo + k)`: at most k entries, those from index lo on |
| Ledger.PageOf | frontend/src/components/Loans.jsx:192 | page p holds at most k entries, the entries from index (p-1)k on |
| Ledger.JoinedPrefix | frontend/src/components/Loans.jsx:192 | pages 1 to n, one after another, are the first nk entries |
| Ledger.PagesPartition | frontend/src/components/Loans.jsx:191-192 | pages 1 to the page count hold the whole listing, in order, each entry once |
| Ledger.PageEmptiness | frontend/src/components/Loans.jsx:191-192 | a page is empty iff it lies past the page count |
| Ledger.NextPage | frontend/src/components/Debts.jsx:88-94 | right moves on iff there is a next page, left moves back iff there is a previous one; otherwise the page stays; a page in range stays in range |
| Ledger.PermutationFacts | frontend/src/components/Loans.jsx:189 | a permutation has the same length and the same members |
| LoansPage.WithoutLoan | frontend/src/components/Loans.jsx:139 | exactly the listed loans with another id remain, each as often as it was listed and in the original order |
| LoansPage.WithoutAbsentLoan | frontend/src/components/Loans.jsx:139 | deleting an unlisted id changes nothing |
| LoansPage.ReplaceLoan | frontend/src/components/Loans.jsx:178 | same length; every loan with the id becomes the server's answer and the others stay in place |
| LoansPage.ReplaceAbsentLoan | frontend/src/components/Loans.jsx:178 | an unlisted id changes nothing |
| LoansPage.ForEditing | frontend/src/components/Loans.jsx:149 | the modal's copy keeps every field; its date is cut before the first 'T', unchanged when there is none |
| LoansPage.Edited | frontend/src/components/Loans.jsx:159-162 | only the named field takes the event's value |
| LoansPage.Loans.constructor | frontend/src/components/Loans.jsx:79-91 | nothing fetched, an empty form, page 1 of 10 entries, modal closed |
| LoansPage.Loans.Fetch | frontend/src/components/Loans.jsx:95-103 | with a user id and an answer, the list becomes the answer; otherwise it stays |
| LoansPage.Loans.Create | frontend/src/components/Loans.jsx:105-132 | a failing check sets its message and sends nothing; otherwise the form is sent, and after a successful post the form is cleared and the list refetched |
| LoansPage.Loans.Delete | frontend/src/components/Loans.jsx:135-145 | only a confirmed delete acts: success drops the id from the list, failure sets the message and keeps the list |
| LoansPage.Loans.OpenEdit | frontend/src/components/Loans.jsx:148-152 | the modal opens on the loan's editing copy |
| LoansPage.Loans.CloseEdit | frontend/src/components/Loans.jsx:154-157 | the modal closes and holds no loan |
| LoansPage.Loans.EditField | frontend/src/components/Loans.jsx:159-162 | the modal's loan takes the change |
| LoansPage.Loans.Update | frontend/src/components/Loans.jsx:165-183 | with a loan in the modal its editable fields are sent to its id; success replaces it in the list and closes the modal; failure changes nothing |
| LoansPage.Loans.SetSearchTerm | frontend/src/components/Loans.jsx:251 | the term is set and the page goes back to 1 |
| LoansPage.Loans.SetItemsPerPage | frontend/src/components/Loans.jsx:254-255 | the size is set and the page goes back to 1 |
| LoansPage.Loans.Listed | frontend/src/components/Loans.jsx:189-190 | newest first; exactly the fetched loans whose borrower matches |
| LoansPage.Loans.TotalPages | frontend/src/components/Loans.jsx:191 | the page count is 0 iff no loan matches |
| LoansPage.Loans.Total | frontend/src/components/Loans.jsx:193 | the total shown is the total of the matching loans in fetched order, whatever the sort |
| LoansPage.Loans.Shown | frontend/src/components/Loans.jsx:191-192 | at most a page of matching loans; empty iff the page lies past the last |
| LoansPage.Loans.PageLabel | frontend/src/components/Loans.jsx:216 | shows the current page, and as the page count 1 for an empty listing and otherwise the fewest pages that hold the listing, `(n - 1) * size < listed <= n * size`; the count is 1 iff the listing fits one page |
| LoansPage.TotalOfAllLoans | frontend/src/components/Loans.jsx:193 | with an empty search the total is the total of every fetched loan |
| DebtsPage.Lender | frontend/src/components/Debts.jsx:69 | a missing lender searches as "" |
| DebtsPage.Debts.constructor | frontend/src/components/Debts.jsx:6-14 | nothing fetched, an empty form, page 1 of 10 entries |
| DebtsPage.Debts.Fetch | frontend/src/components/Debts.jsx:18-26 | with a user id and an answer, the list becomes the answer; otherwise it stays |
| DebtsPage.Debts.Create | frontend/src/components/Debts.jsx:28-62 | a failing check sets its message and sends nothing; otherwise the form is sent, and after a successful post the form is cleared and the list refetched |
| DebtsPage.Debts.SetSearchTerm | frontend/src/components/Debts.jsx:179-182 | the term is set and the page goes back to 1 |
| DebtsPage.Debts.SetItemsPerPage | frontend/src/components/Debts.jsx:189-191 | the size is set and the page goes back to 1 |
| DebtsPage.Debts.KeyDown | frontend/src/components/Debts.jsx:87-98 | the arrow keys move the page as `NextPage` says; a page in range stays in range |
| DebtsPage.Debts.Listed | frontend/src/components/Debts.jsx:64-70 | newest first; exactly the fetched debts whose lender matches |
| DebtsPage.Debts.TotalPages | frontend/src/components/Debts.jsx:72 | 0 iff nothing matches, shown as is ("page 1 of 0") |
| DebtsPage.Debts.Shown | frontend/src/components/Debts.jsx:72-76 | at most a page of matching debts; empty iff the page lies past the last |
| DebtsPage.Debts.Total | frontend/src/components/Debts.jsx:78-81 | the total shown is the total of the matching debts in fetched order, whatever the sort |
| DebtsPage.TotalOfAllDebts | frontend/src/components/Debts.jsx:78-81 | with an empty search the total is the total of every fetched debt |
| DebtsPage.MissingLenderMatchesOnlyEmpty | frontend/src/components/Debts.jsx:68-70 | a debt without a lender is found by the empty search only |
| DebtsPage.OnlyMatch | frontend/src/components/Debts.jsx:68-81 | when exactly one debt matches, it alone is listed and the total is its amount |
| DebtsPage.SearchJohnExample | frontend/cypress/e2e/dashboard.cy.js:242-251 | searching "John" over Rent/Landlord and Dinner/John Doe lists the dinner alone, with total 300 |
| ExpensesPage.CategoryLabel | frontend/src/components/Expenses.jsx:237 | a missing or empty category shows as "uncategorized" |
| ExpensesPage.Expenses.constructor | frontend/src/components/Expenses.jsx:15-23 | nothing fetched, an empty form, page 1 of 10 entries |
| ExpensesPage.Expenses.Fetch | frontend/src/components/Expenses.jsx:27-36 | with a user id and an answer, the list becomes the answer; otherwise it stays |
| ExpensesPage.Expenses.SelectCategory | frontend/src/components/Expenses.jsx:160-171 | the picker holds its empty choice or one of the eleven categories |
| ExpensesPage.Expenses.SelectPayMethod | frontend/src/components/Expenses.jsx:175-186 | the picker holds its empty choice or one of the six methods |
| ExpensesPage.Expenses.Create | frontend/src/components/Expenses.jsx:38-74 | checks over five fields; a sent expense always names an offered category and method; after a successful post the form is cleared and the list refetched |
| ExpensesPage.Expenses.SetItemsPerPage | frontend/src/components/Expenses.jsx:199-204 | the size is set and the page goes back to 1 |
| ExpensesPage.Expenses.KeyDown | frontend/src/components/Expenses.jsx:90-101 | the arrow keys move the page as `NextPage` says; a page in range stays in range |
| ExpensesPage.Expenses.Sorted | frontend/src/components/Expenses.jsx:76-78 | newest first, a permutation of the fetched expenses |
| ExpensesPage.Expenses.TotalPages | frontend/src/components/Expenses.jsx:80 | counted over every fetched expense; 0 iff there are none |
| ExpensesPage.Expenses.Shown | frontend/src/components/Expenses.jsx:80-84 | at most a page of fetched expenses; empty iff the page lies past the last |
| ExpensesPage.FirstPageShowsAll | frontend/cypress/e2e/dashboard.cy.js:116-123 | on page 1 a list that fits one page is shown whole, newest first |
| ExpensesPage.TwentyExpensesExample | frontend/src/components/Expenses.jsx:80-84 | 20 expenses give 2 pages of 10 rows, or 4 pages of 5 rows |
| AnalyticsPage.CategoryTotals | frontend/src/components/Analytics.jsx:40-44 | the loop builds the first-seen-ordered totals per lower-cased category |
| AnalyticsPage.CategoryKeys | frontend/src/components/Analytics.jsx:40-44 | a category is a key iff some anomaly's category lower-cases to it |
| AnalyticsPage.BorderColors | frontend/src/components/Analytics.jsx:46-56 | the first min(n, 10) palette colours, in order |
| AnalyticsPage.BorderColorsDistinct | frontend/src/components/Analytics.jsx:46-49 | no two sliced colours are the same |
| AnalyticsPage.Project | frontend/src/components/Analytics.jsx:51-92 | one label and one value per map entry, in the map's order |
| AnalyticsPage.CategoryChart | frontend/src/components/Analytics.jsx:51-60 | one slice per category, with one border colour per category up to ten |
| AnalyticsPage.MonthlyChart | frontend/src/components/Analytics.jsx:62-73 | one point per month entry, in the series "monthly spending" |
| AnalyticsPage.WeeklyChart | frontend/src/components/Analytics.jsx:75-92 | one bar per week entry, in the series "weekly averages", coloured up to ten |
| AnalyticsPage.CategoryChartTotal | frontend/src/components/Analytics.jsx:40-60 | the slices add up to the total of all anomalies |
| AnalyticsPage.AnomaliesNotice | frontend/src/components/Analytics.jsx:150-166 | "no anomalies detected" iff there are none |
| AnalyticsPage.Analytics.constructor | frontend/src/components/Analytics.jsx:10-17 | loading, with nothing loaded |
| AnalyticsPage.Analytics.Load | frontend/src/components/Analytics.jsx:21-101 | without a user id nothing changes; a failed request only ends loading; otherwise the answers are stored, the three charts drawn, and loading ends |
| AnalyticsPage.Analytics.Present | frontend/src/components/Analytics.jsx:32-95 | every answer stored, every chart drawn, loading ended |
| AnalyticsPage.Analytics.StoreAnswers | frontend/src/components/Analytics.jsx:35-38 | the insights and the three totals are stored |
| AnalyticsPage.Analytics.DrawCharts | frontend/src/components/Analytics.jsx:40-92 | the pie from the anomalies' category totals, the line and the bars from the two breakdowns |
| AnalyticsPage.Analytics.Showing | frontend/src/components/Analytics.jsx:103-104 | the loading message while loading, then the notice iff there are no insights, else the report |
| AnalyticsPage.TravelExample | frontend/cypress/e2e/dashboard.cy.js:314 | the one 5000 "Travel" anomaly gives one slice "travel" of 5000 in the first colour |
| Dashboard.AmountOrZero | frontend/src/pages/DashboardPage.jsx:30 | a missing amount counts as 0 |
| Dashboard.CategoryCount | frontend/src/pages/DashboardPage.jsx:33-34 | the number of distinct categories, a missing one counting once; at most the count of entries; 0 iff there are none |
| Dashboard.CategorySet | frontend/src/pages/DashboardPage.jsx:33 | the categories mapped are exactly the entries' categories |
| Dashboard.DashboardPage.constructor | frontend/src/pages/DashboardPage.jsx:10-13 | nothing fetched, every counter 0 |
| Dashboard.DashboardPage.Fetch | frontend/src/pages/DashboardPage.jsx:20-38 | with a user id and an answer, the list and its three counters are replaced; otherwise all stay; the counters always describe the list |
| Dashboard.DashboardPage.ShowsEmptyState | frontend/src/pages/DashboardPage.jsx:149-158 | the notice shows iff no expense is loaded, and then the total and the category count are 0 |
| Dashboard.FourExpensesExample | frontend/cypress/e2e/dashboard.cy.js:3-8 | the test's four expenses add up to 476.25 over three categories |

## Left out

- HTTP, `axios` and the asynchronous rendering are not modelled. Each server answer is a parameter: the data, or `None` when the request fails. Handlers run to completion one at a time, so interleaved completions are not modelled.
- `window.confirm` is not modelled; the user's answer is a parameter. `localStorage` becomes a constant user id, and "today" is a parameter.
- `console.error` is left out.
- `parseFloat`, `NaN` and `toFixed` are not modelled. Amounts are exact `real`s, and an amount input is blank or a number.
- `toLowerCase` is modelled on ASCII letters only.
- Browser dates are ISO `YYYY-MM-DD` strings. The future-date check compares them as strings, as the code does. The sort compares them as strings too, which orders ISO dates as `new Date` does; invalid dates are not modelled.
- The `en-IN` rendering of anomaly dates, and the lower-casing of insight labels and suggestions, are not modelled.
- Years before 1 are excluded from `Calendar`. The `MMM` field is English only.
- Calendar.PlusDays: defined only for steps of up to 28 days, because the code adds 6 days and nothing more.
- Server record ids are natural numbers, not UUIDs. The id a save generates is a parameter, required not to be taken yet.
- `createdAt`, `updatedAt` and null columns are not modelled. A record's fields are what a request sets. A request body that carries its own id is not modelled.
- Store.Repository.FindByUserId: the repository promises no order. The model lists ids in ascending order, and every property proved about the listing holds whatever the order.
- ExpenseService.ExpenseService.MonthlyBreakdown: a `HashMap` has no defined order. The model keeps first-seen order, and its contract speaks only of keys and totals, which hold in any order.
- AnalyticsPage.Analytics.Load: the breakdown objects are lists of entries in the order they arrive. JSON key order is not modelled.
- ExpenseService.ExpenseService.SumBetween: the SQL `SUM` of no rows is NULL; the model answers 0.
- JPA entity identity and aliasing are not modelled. A stored record is a value, and `save` overwrites by id.
- The exception messages are not modelled. Each failure is a `Missing` or `UserError` value. The HTTP status for `UsernameNotFoundException` is not in the sources and is left out.
- The password encoder is a function parameter. JWT login and `CustomUserDetailsService` are not modelled.
- User.java and UserRepository.java are not part of this model. The user entity and its repository are modelled from how `UserService` calls them. The REST controllers are left out: they only forward to the services.
- AnalyticsPage.Analytics.Load: without a user id the page stays loading for good, as the code has it.
- The insights service and the Python analysis script that produce `insights` are not part of this model. The insights are an input.
- The dashboard's `logout` and navigation buttons are not modelled. Nor are the register, login and landing pages.
