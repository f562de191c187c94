# Spliter ledger engine in Dafny

Spliter is a bill-splitting application. Users record expenses, each with one
payer and a list of splits (who owes what, and whether that share is already
paid). Expenses are either personal (between two people) or belong to a group.
Users also record settlements, which are payments from one user to another.
The server functions on its Convex backend turn these records into answers:
- who owes whom;
- per-group ledgers;
- per-user balances;
- monthly spending;
- the reminder lists an e-mail job sends out.

This project models those server functions and proves what they compute.
Each source file has its own Dafny module.

- `records.dfy` (`Records`) holds the records shared by all of them. These
  are users, groups with their roster, expenses with splits, and settlements.
  It also holds the lookups every function uses: `db.get` by id,
  `splits.find`, roster membership, and the iteration order of a JavaScript
  `Set`.
- `categories.dfy` (`ExpenseCategories`) models the fixed category table and
  its three lookups.
- `users.dfy` (`Users`) models `store`, `getCurrentUser` and `searchUsers`.
  `store` is a class whose `rows` field is the users table and which it
  updates in place.
- `contacts.dfy` (`Contacts`) models `getAllContacts` and `createGroup`.
- `groups.dfy` (`Groups`) models `getGroupOrMembers` and `getGroupExpenses`.
  The ledger passes of `getGroupExpenses` are loops over maps, proved against
  pure specification functions.
- `group_ledger.dfy` (`GroupLedger`) proves what the group ledger means.
  - Each cell is a closed form over the group's records.
  - The cancellation pass keeps each pair's net difference.
  - The finding about the `totals` record lives here (see Findings).
- `settlements.dfy` (`Settlements`) models `createSettlement` and both
  branches of `getSettlementData`.
- `dashboard.dfy` (`Dashboard`) models `getUserBalances`, `getTotalSpend`,
  `getMonthlySpending` and `getUserGroups`.
- `reminders.dfy` (`Reminders`) models the three queries of the reminder
  job: `getUserWithOutstandingDebts`, `getUserWithExpenses` and
  `getUserMonthlyExpenses`.

How the model represents the source:
- Tables are sequences in table order. An index query is the filter of its
  table.
- Ids are natural numbers and amounts are integers (minor units).
- The caller's identity is a parameter `me`.
- Where the code does something its comments or its names do not suggest,
  the model does what the code does. Examples:
  - the operator precedence of the `getUserBalances` filters;
  - the key used for received settlements at `convex/dashboard.ts:64`;
  - the unchecked receiver in the person-to-person settlement loop;
  - the sign of `totals[debtor]`.

  The lemmas in the table below state these behaviours; for the first two
  and the last, lemmas on concrete inputs show them.

## Model

| member | source | states |
|---|---|---|
| Records.FindSplit | convex/dashboard.ts:38 | `splits.find` by user: a result exactly when the user holds a split, and then it is the first such split |
| Records.FindUnpaidSplit | convex/settlements.ts:128-130 | a result exactly when the user holds an unpaid split, and then it is the user's first unpaid split |
| Records.GroupsOf | convex/groups.ts:41-44 | the groups whose roster contains the user, and no others |
| Records.GroupSummaries | convex/groups.ts:79-84 | one summary per group of the user, in table order, each carrying the roster's length as `memberCount` |
| Records.MemberIds | convex/groups.ts:135 | the roster's user ids, one per membership, in roster order |
| Records.MemberIdsIsMember | convex/groups.ts:114 | an id is among the roster ids exactly when `members.some` finds it |
| Records.GetUser | convex/settlements.ts:96-97 | `db.get` on users: a row exactly when one with that id exists, and the row has that id |
| Records.GetGroup | convex/groups.ts:111-112 | `db.get` on groups: a row exactly when one with that id exists, and the row has that id |
| Records.Dedup | convex/contacts.ts:82-83 | no element twice, and the same elements as its input (the definition keeps first occurrences, the order `new Set` iterates in; that order is not a separate clause) |
| ExpenseCategories.Lookup | lib/expense-categories.ts:155 | a category exactly when the key is one of the table's keys, and then it is that key's entry |
| ExpenseCategories.TableWellFormed | lib/expense-categories.ts:40-151 | every entry's `id` equals its key, and no key appears twice |
| ExpenseCategories.CategoryById | lib/expense-categories.ts:154-156 | a known id gives its own category; an unknown id gives the "other" category; the result is always an entry of the table |
| ExpenseCategories.AllCategories | lib/expense-categories.ts:159-161 | all 22 categories in table order, each found again by its own id |
| ExpenseCategories.CategoryIcon | lib/expense-categories.ts:164-166 | the icon of the category found by id; the "other" icon for an unknown id |
| Users.WithToken | convex/user.ts:18-23 | the `by_token` index returns exactly the rows carrying that token |
| Users.AtMostOneWithToken | convex/user.ts:18-23 | with distinct tokens, the index returns at most one row, so `unique()` does not fail |
| Users.TokenIndex | convex/user.ts:49-53 | the first row carrying the token |
| Users.FreshId | convex/user.ts:32 | an id larger than every id in the table |
| Users.StoreSpec | convex/user.ts:5-39 | no identity fails with the store unchanged; a success returns the id of a row carrying the caller's token |
| Users.StorePreservesUniqueness | convex/user.ts:18-37 | `store` keeps ids and tokens unique, and on such a table it never hits the duplicate-row failure |
| Users.StoreOnKnownToken | convex/user.ts:24-30 | a known token returns that row's id, and only that row's name changes (to the identity's name) |
| Users.StoreOnNewToken | convex/user.ts:31-37 | a new token appends one row with a fresh id, "Anonymous" and "" as default name and e-mail, and returns that id |
| Users.StoreIdempotent | convex/user.ts:18-30 | a second `store` with the same identity returns the same id and adds no row; the table stays the same when the identity has a name |
| Users.StoreNamelessTwice | convex/user.ts:26-33 | a nameless identity is stored as "Anonymous", then a second `store` patches the name to missing |
| Users.CurrentUser | convex/user.ts:41-60 | not authenticated exactly when there is no identity; "User not found" exactly when no row has the token; otherwise the first row with the token, as `.first()` returns it |
| Users.StoreThenCurrentUser | convex/user.ts:5-60 | after `store`, `getCurrentUser` finds the row whose id `store` returned |
| Users.UserStore.Store | convex/user.ts:5-39 | the users table moves to the new state `StoreSpec` gives and stays free of duplicate ids and tokens; a known token adds no row, a new one adds exactly one |
| Users.SearchUsers | convex/user.ts:62-88 | the name hits without the caller, then the e-mail hits whose id is not among the name hits, without the caller, each with its row's fields; so the hits are exactly the users found by name or e-mail other than the caller, and with duplicate-free searches no user is listed twice |
| Users.EmailOnly | convex/user.ts:78 | the e-mail hits whose id is not among the name hits |
| Users.Others | convex/user.ts:80-81 | exactly the rows other than the caller's |
| Users.Merged | convex/user.ts:78-81 | the name hits without the caller, then the remaining e-mail hits without the caller |
| Users.MergedIds | convex/user.ts:78-81 | the merged ids are the union of both searches' ids, minus the caller's |
| Users.MergedDistinct | convex/user.ts:78 | the merge lists no id twice when neither search does |
| Users.Hits | convex/user.ts:82-87 | one hit per row, in row order, carrying that row's id, name, e-mail and image; so ids are kept, none added, and kept distinct |
| Users.HitsConcat | convex/user.ts:80-87 | the hits of two runs of rows are the first run's hits, then the second's |
| Records.FilterConcat | convex/user.ts:78-81 | filtering a concatenation filters each part and keeps their order |
| Contacts.PersonalExpenses | convex/contacts.ts:11-28 | exactly the non-group expenses the caller pays or holds a split in |
| Contacts.SplitOthersMembers | convex/contacts.ts:35-37 | the split holders collected are exactly those other than the caller |
| Contacts.TouchesMembers | convex/contacts.ts:30-38 | the ids collected are exactly the non-caller payers and split holders of the expenses |
| Contacts.DedupSnoc | convex/contacts.ts:30-36 | `Set.add` appends a new id and ignores one already present |
| Contacts.ContactIds | convex/contacts.ts:30-38 | the contact ids are distinct, exclude the caller, and are exactly the people sharing a personal expense with the caller |
| Contacts.AddExpenseContacts | convex/contacts.ts:31-37 | one expense's pass adds its payer (unless the caller) and then its split holders, in `Set` order |
| Contacts.AddSplitHolders | convex/contacts.ts:35-37 | the inner pass adds each non-caller split holder in `Set` order |
| Contacts.ContactUsers | convex/contacts.ts:40-54 | every listed contact is a collected id whose user row carries that name, e-mail and image; every collected id whose row has both a name and an e-mail is listed |
| Contacts.ContactUsersDistinct | convex/contacts.ts:40-66 | no contact is listed twice |
| Contacts.AllContacts | convex/contacts.ts:7-67 | every contact shares a personal expense with the caller, is not the caller, and carries its user row's name, e-mail and image; every such counterpart whose row has a name and an e-mail is listed; contacts are distinct; the groups are the caller's group summaries |
| Contacts.TrimStart | convex/contacts.ts:80 | drops exactly the leading white space |
| Contacts.TrimEnd | convex/contacts.ts:80 | drops exactly the trailing white space |
| Contacts.Trim | convex/contacts.ts:80 | `trim()`: empty exactly when the name is all white space; otherwise a slice of the name with no white space at either end and only white space cut away |
| Contacts.TrimIdempotent | convex/contacts.ts:91 | trimming a trimmed name changes nothing |
| Contacts.UniqueMembers | convex/contacts.ts:82-83 | the members once each, with the creator always among them |
| Contacts.FirstMissing | convex/contacts.ts:85-88 | no missing id exactly when every id has a user row; otherwise an id without one |
| Contacts.FirstMissingIsFirst | convex/contacts.ts:85-88 | the reported id is the first one in `Set` order that has no row |
| Contacts.MembersFound | convex/contacts.ts:82-88 | the check passes exactly when every requested id and the creator exist |
| Contacts.Roster | convex/contacts.ts:94-98 | one membership per id, in order, joined now; the creator is admin and everyone else a member |
| Contacts.CreateGroup | convex/contacts.ts:77-99 | a blank name fails first; then the first missing member fails; it succeeds exactly when the name is not blank and all members and the creator exist; the group has the trimmed name and description, the creator, and a roster of the unique members |
| Contacts.CreatedGroupHasOneAdmin | convex/contacts.ts:82-98 | a created group has no duplicate member and exactly one admin, the creator |
| Groups.MemberDetails | convex/groups.ts:54-69 | exactly the roster members with a user row, each with that row's fields and its role |
| Groups.GetGroupOrMembers | convex/groups.ts:37-100 | fails exactly when a group id is given that is not one of the caller's groups; otherwise the caller's summaries and, when asked, that group's details |
| Groups.InitialLedger | convex/groups.ts:138-145 | a zero cell for every ordered pair of different members, and no other cell |
| Groups.InitialTotals | convex/groups.ts:137 | a zero total for every member |
| Groups.NewLedger | convex/groups.ts:138-145 | the nested `forEach` builds the initial ledger |
| Groups.NewRow | convex/groups.ts:141-144 | one member's row: a zero cell for each other member |
| Groups.BumpEntries | convex/groups.ts:159 | `ledger[d][p] += amt` changes that cell by `amt` and no other |
| Groups.GroupExpenses | convex/groups.ts:116-118 | the `by_group` index: exactly the group's expenses |
| Groups.GroupSettlements | convex/groups.ts:120-122 | exactly the group's settlements |
| Groups.Netted | convex/groups.ts:171-189 | each pair of opposing cells keeps its difference, on one side only, and never goes negative |
| Groups.GetGroupExpenses | convex/groups.ts:107-189 | a missing group and a non-member caller are the two errors; otherwise the netted ledger and the totals over the group's expenses and settlements |
| Groups.WithinFits | convex/groups.ts:147-168 | when the records stay within the roster, every cell and total the loops touch exists |
| Groups.AccumulateExpenses | convex/groups.ts:147-161 | the expense loop computes the specified book and creates no cell |
| Groups.ExpensesStep | convex/groups.ts:147-161 | the book after one more expense is the previous book with its splits applied |
| Groups.AccumulateSplits | convex/groups.ts:150-160 | the split loop of one expense computes the specified book |
| Groups.AddSplit | convex/groups.ts:151-159 | one counted split credits payer and debtor totals and the debtor-to-payer cell |
| Groups.ApplySettlements | convex/groups.ts:163-169 | the settlement loop computes the specified book and creates no cell |
| Groups.Settle | convex/groups.ts:164-167 | one settlement moves the payer's total up, the receiver's down, and the payer-to-receiver cell down |
| Groups.CancelOpposing | convex/groups.ts:171-189 | the cancellation pass yields the netted ledger |
| Groups.CancelRow | convex/groups.ts:172-188 | the inner pass for one id nets every pair with a larger id |
| Groups.CancelPair | convex/groups.ts:174-187 | one pair keeps its net debt, and nothing else changes |
| Groups.OpposingDifference | convex/groups.ts:174 | `diff` is the original difference of the two cells |
| Groups.NetPairCells | convex/groups.ts:176-187 | the three branches leave only the positive part of the difference on the side that owes |
| Groups.AllPairsNetted | convex/groups.ts:171-189 | once every pair is done, the ledger equals the netted ledger |
| Groups.RowNetted | convex/groups.ts:171-189 | once every pair is done, each row equals its netted row |
| Groups.CellNetted | convex/groups.ts:171-189 | once every pair is done, each cell equals its netted cell |
| GroupLedger.SplitsEntry | convex/groups.ts:150-160 | one expense's splits add, to each cell, exactly the unpaid shares that debtor owes that payer |
| GroupLedger.ExpensesEntry | convex/groups.ts:147-161 | the expense loop adds to each cell everything the row's member owes the column's member |
| GroupLedger.SettlementsEntry | convex/groups.ts:163-169 | the settlement loop subtracts from each cell everything that payer paid that receiver |
| GroupLedger.RawEntry | convex/groups.ts:137-169 | before cancellation a cell holds what a owes b minus what a repaid b |
| GroupLedger.GroupLedgerClosedForm | convex/groups.ts:137-189 | after cancellation a cell is the positive part of a's outstanding debt to b minus b's to a; of two opposing cells at most one is non-zero |
| GroupLedger.NetOneSided | convex/groups.ts:176-187 | the netted pair is non-negative and one-sided |
| GroupLedger.NettedCell | convex/groups.ts:171-189 | a netted cell is the positive part of the difference of the two opposing cells |
| GroupLedger.SumOverCredit | convex/groups.ts:156 | crediting one total moves the sum over the roster by that amount |
| GroupLedger.SumOverZero | convex/groups.ts:137 | the initial totals sum to zero |
| GroupLedger.SplitsTotalsSum | convex/groups.ts:156-157 | as written, each counted split raises the sum of the totals by twice its amount |
| GroupLedger.SplitsTotals | convex/groups.ts:156-157 | the totals after the split loop are the credits of payer and debtor |
| GroupLedger.ExpensesTotals | convex/groups.ts:147-161 | the totals after the expense loop are the credits of all counted splits |
| GroupLedger.ExpensesTotalsSum | convex/groups.ts:147-161 | the expense loop raises the sum of the totals by twice the amount it books |
| GroupLedger.SettlementsTotals | convex/groups.ts:163-165 | the totals after the settlement loop are the payers' credits and the receivers' debits |
| GroupLedger.SettleTotalsSum | convex/groups.ts:163-165 | the settlement loop leaves the sum of the totals unchanged |
| GroupLedger.GroupTotalsSumAsWritten | convex/groups.ts:137-169 | as written, the totals add up to twice the booked debt, not to zero |
| GroupLedger.TotalsDoNotBalance | convex/groups.ts:156-159 | one dinner of 20 with a 10 share unpaid gives both members a total of 10, summing to 20, while the ledger shows the debt of 10 |
| GroupLedger.DinnerTotals | convex/groups.ts:147-161 | the expense loop on that dinner gives totals 10 and 10 |
| GroupLedger.PairTotals | convex/groups.ts:137 | a two-member group starts with two zero totals |
| GroupLedger.DinnerCredits | convex/groups.ts:156-157 | crediting that dinner gives totals 10 and 10 |
| GroupLedger.DinnerLedger | convex/groups.ts:159 | the ledger records the debtor's 10 to the payer |
| GroupLedger.NetSplitsSum | convex/groups.ts:156-157 | with the debtor debited, one expense's splits keep the totals' sum |
| GroupLedger.NetExpensesSum | convex/groups.ts:147-161 | with the debtor debited, the expense loop keeps the totals' sum |
| GroupLedger.CorrectedTotalsSumZero | convex/groups.ts:137-169 | with the debtor debited, the totals of a group add up to zero |
| GroupLedger.BalanceBump | convex/groups.ts:159 | a ledger change moves the creditor's balance up and the debtor's down by the amount |
| GroupLedger.BalanceZero | convex/groups.ts:138-145 | every member's balance in the initial ledger is zero |
| GroupLedger.SplitsBalance | convex/groups.ts:150-160 | one expense's splits move each corrected total and ledger balance alike |
| GroupLedger.ExpensesBalance | convex/groups.ts:147-161 | the expense loop moves each corrected total and ledger balance alike |
| GroupLedger.SettlementsBalance | convex/groups.ts:163-169 | the settlement loop moves each corrected total and ledger balance alike |
| GroupLedger.SettlementBalanceStep | convex/groups.ts:164-167 | one settlement moves a total and the ledger balance alike |
| GroupLedger.NettedDifference | convex/groups.ts:174-187 | cancellation keeps the difference of every pair of opposing cells |
| GroupLedger.NettedBalance | convex/groups.ts:171-189 | cancellation keeps each member's balance (what others owe them minus what they owe) |
| GroupLedger.CorrectedTotalsAreBalances | convex/groups.ts:137-189 | with the debtor debited, each member's total is their balance in the final ledger |
| Settlements.CreateSettlement | convex/settlements.ts:51-83 | the checks in order: amount, same party, caller is a party, group exists, both parties in it; success exactly when all pass, inserting the requested settlement dated now and created by the caller |
| Settlements.CreatedSettlementWithinGroup | convex/settlements.ts:62-71 | a created group settlement is positive, between two different members of that group |
| Settlements.PersonalPaidBy | convex/settlements.ts:99-111 | exactly the non-group expenses that user paid |
| Settlements.PersonalSettlementsBy | convex/settlements.ts:142-154 | exactly the non-group settlements that user paid |
| Settlements.PairStepDirect | convex/settlements.ts:118-139 | one expense adds the other's first unpaid share to `owed` when the caller paid, and the caller's to `owing` when the other paid |
| Settlements.PairTallySums | convex/settlements.ts:115-140 | `owed` and `owing` are the sums of those unpaid shares over the expenses |
| Settlements.PairSettleClamps | convex/settlements.ts:158-164 | after the settlement loop each side is non-negative, unless no settlement ever touched it |
| Settlements.PairSettleNonNegative | convex/settlements.ts:158-164 | from non-negative tallies, both sides stay non-negative |
| Settlements.PairSettleLowers | convex/settlements.ts:158-164 | positive settlements never raise either side |
| Settlements.UserSettlementData | convex/settlements.ts:95-177 | "User not found" exactly when there is no such user; otherwise the counterpart with the tallies after expenses and settlements and their difference |
| Settlements.PairExpenses | convex/settlements.ts:115-140 | the expense loop computes the sums of unpaid shares each way |
| Settlements.PairSettlements | convex/settlements.ts:158-164 | the settlement loop computes the clamped tallies |
| Settlements.BalanceKeys | convex/settlements.ts:192-195 | the roster members other than the caller, once each |
| Settlements.ZeroTallies | convex/settlements.ts:192-195 | a zero entry for each of those members |
| Settlements.GroupSettleNonNegative | convex/settlements.ts:217-230 | the group settlement loop keeps every entry non-negative |
| Settlements.GroupSettleTouches | convex/settlements.ts:217-230 | an entry no settlement between it and the caller touches is unchanged |
| Settlements.OwedSplitsEntry | convex/settlements.ts:198-203 | an expense the caller paid adds to each member's `owed` that member's unpaid shares |
| Settlements.GroupTallyEntry | convex/settlements.ts:197-210 | after the expense loop each member's entry holds what they owe the caller and what the caller owes them |
| Settlements.BalanceList | convex/settlements.ts:236-247 | one row per member in key order, with the entry's amounts and their difference |
| Settlements.ExpensesOfGroup | convex/settlements.ts:187-190 | exactly the group's expenses |
| Settlements.SettlementsOfGroup | convex/settlements.ts:212-215 | exactly the group's settlements |
| Settlements.GroupResult | convex/settlements.ts:192-230 | the entries are exactly those of the other roster members |
| Settlements.GroupResultEntry | convex/settlements.ts:192-210 | before settlements a member's entry is what they owe the caller and what the caller owes them |
| Settlements.GroupSettlementData | convex/settlements.ts:178-257 | a missing group and a non-member caller are the two errors; otherwise the group and one balance row per other member |
| Settlements.GroupExpenses | convex/settlements.ts:197-210 | the expense loop computes the specified entries |
| Settlements.OwnExpense | convex/settlements.ts:198-203 | the split pass of an expense the caller paid computes the specified entries |
| Settlements.GroupSettlements | convex/settlements.ts:217-230 | the settlement loop computes the specified entries and keeps them non-negative |
| Settlements.GroupDataEntries | convex/settlements.ts:192-247 | the list names each other roster member exactly once |
| Settlements.GetSettlementData | convex/settlements.ts:92-260 | any type other than "user" or "group" is "Invalid entity type"; "user" is "User not found" exactly when the user has no row, and otherwise the counterpart's fields with the settled pair tallies `owed`, `owing` and their difference; "group" is "Group not found" without a group row, "Not a member of this group" when the caller is not on the roster, and otherwise the group's id, name and description with one balance row per other member from the settled group tallies |
| Dashboard.AdjustSums | convex/dashboard.ts:44-64 | a bucket change moves the sums of all buckets' amounts by the change, keeping one bucket per key |
| Dashboard.AdjustPresent | convex/dashboard.ts:44 | an existing bucket is updated in place |
| Dashboard.AdjustAbsent | convex/dashboard.ts:44 | a missing bucket is appended and the sums move by the change |
| Dashboard.AdjustAppends | convex/dashboard.ts:44 | `??=` appends a key for a missing bucket |
| Dashboard.ReplaceSums | convex/dashboard.ts:44 | replacing a bucket moves the sums by the difference |
| Dashboard.AppendSums | convex/dashboard.ts:44 | appending a bucket moves the sums by its amounts |
| Dashboard.BalanceExpenses | convex/dashboard.ts:26-30 | exactly the expenses the filter passes as written: personal ones the caller paid, or any in which the caller holds a split |
| Dashboard.BalanceSettlements | convex/dashboard.ts:53-55 | exactly the settlements the filter passes as written: personal ones the caller paid, or any the caller received |
| Dashboard.PayerSplitsConsistent | convex/dashboard.ts:41-45 | the payer's split loop keeps `youAreOwed` and `youOwe` equal to the sums over the buckets |
| Dashboard.ExpensesConsistent | convex/dashboard.ts:36-51 | the expense loop keeps the totals equal to the sums over the buckets |
| Dashboard.MoveConsistent | convex/dashboard.ts:43-49 | one step changing a total and its bucket alike keeps them consistent |
| Dashboard.PaidConsistent | convex/dashboard.ts:58-61 | a settlement the caller paid keeps them consistent |
| Dashboard.ReceivedConsistent | convex/dashboard.ts:62-65 | a settlement the caller received keeps them consistent |
| Dashboard.SettlementsConsistent | convex/dashboard.ts:57-66 | the settlement loop keeps the totals equal to the sums over the buckets |
| Dashboard.Listing | convex/dashboard.ts:71-87 | one list: every listed counterpart is a key other than the caller with the list's sign of net and amount \|net\|; every such key is listed, and only once when the keys are distinct |
| Dashboard.OweLists | convex/dashboard.ts:71-87 | positive nets go to "owes you" and negative nets to "you owe", both with amount \|net\|; the caller's own bucket and zero nets are left out; no counterpart twice |
| Dashboard.UserBalancesConsistent | convex/dashboard.ts:32-66 | the reported totals are the sums over all buckets, the caller's own included |
| Dashboard.GetUserBalances | convex/dashboard.ts:22-94 | the answer is the specified one, and its total balance is owed minus owing |
| Dashboard.ApplyExpenses | convex/dashboard.ts:36-51 | the expense loop computes the specified state |
| Dashboard.ApplyPayerSplits | convex/dashboard.ts:41-45 | the payer's split loop computes the specified state |
| Dashboard.ApplySettlements | convex/dashboard.ts:57-66 | the settlement loop computes the specified state and keeps it consistent |
| Dashboard.BuildLists | convex/dashboard.ts:68-87 | the list loop builds the specified lists |
| Dashboard.SettlementIsNotClamped | convex/dashboard.ts:57-61 | a personal payment of 5 by the caller with no debt makes `youOwe` -5 and the total balance 5 |
| Dashboard.GroupSplitCounted | convex/dashboard.ts:26-49 | a group expense in which the caller holds an unpaid share of 4 counts 4 in `youOwe` |
| Dashboard.ReceivedSettlementKeyedByCaller | convex/dashboard.ts:62-73 | a received payment of 4 makes `youAreOwed` -4 and books it in the caller's own bucket, so neither list shows it |
| Dashboard.SpendExpenses | convex/dashboard.ts:104-111 | exactly the expenses since the start of the year that the caller paid or holds a split in |
| Dashboard.TotalSpend | convex/dashboard.ts:97-126 | the loop sums the caller's split amounts over those expenses |
| Records.DatedFrom | convex/dashboard.ts:104-106 | exactly the expenses dated at or after the given start; the dashboard passes the start of the year, and the reminder job (convex/inngest.ts:126-128) passes the month start |
| Dashboard.SpendSnoc | convex/dashboard.ts:115-122 | one more expense adds the caller's first split amount, or 0 |
| Dashboard.SpendIgnoresPayerOnly | convex/dashboard.ts:108-122 | the involvement filter does not change the total: expenses the caller only paid contribute nothing |
| Dashboard.SumMonthsStep | convex/dashboard.ts:153-167 | one more expense adds the caller's share to the sum over the months when its month is among them |
| Dashboard.MonthsAddUpToSpend | convex/dashboard.ts:153-167 | when every share lands in a listed month, the month totals add up to the spend |
| Dashboard.SumMonthsEmpty | convex/dashboard.ts:146-151 | the seeded months start at zero |
| Dashboard.MonthlySpending | convex/dashboard.ts:128-175 | twelve rows in seeding order, each holding that month's sum of the caller's split amounts |
| Dashboard.MonthlyMatchesTotal | convex/dashboard.ts:146-167 | the twelve monthly totals add up to the year's spend |
| Dashboard.MySettlementsIn | convex/dashboard.ts:214-222 | exactly the group's settlements the caller paid or received |
| Dashboard.UserGroups | convex/dashboard.ts:177-242 | one row per group of the caller, in table order, each with its balance |
| Dashboard.GroupBalance | convex/dashboard.ts:188-237 | a group's balance is the expense part plus the settlement part |
| Dashboard.ExpensesLoop | convex/dashboard.ts:196-212 | the expense loop computes the specified balance |
| Dashboard.SettlementsLoop | convex/dashboard.ts:224-232 | the settlement loop computes the specified balance |
| Dashboard.OwnSplitsBalance | convex/dashboard.ts:198-202 | an expense the caller paid adds the others' unpaid shares |
| Dashboard.NetSplitsAt | convex/dashboard.ts:196-212 | one expense moves the caller's corrected total by the amount the balance loop adds for it |
| Dashboard.OneSplitSum | convex/dashboard.ts:205-210 | with one split per member, the first split found is the sum of the member's unpaid splits |
| Dashboard.NetExpensesAt | convex/dashboard.ts:196-212 | over all expenses, the caller's corrected total moves by the expense part of the balance |
| Dashboard.SettleTotalsAt | convex/dashboard.ts:224-232 | the settlements move the caller's total as the settlement part of the balance does |
| Dashboard.BalanceSnoc | convex/dashboard.ts:224-232 | one more settlement adds its own contribution to both sums |
| Dashboard.MySettlementsDelta | convex/dashboard.ts:214-232 | limiting to the caller's settlements does not change the settlement part |
| Dashboard.PartsDelta | convex/dashboard.ts:214-232 | one settlement moves the filtered and the unfiltered sums alike |
| Dashboard.MySettlementsSnoc | convex/dashboard.ts:214-222 | both settlement filters extend by at most the new settlement |
| Dashboard.GroupBalanceIsCorrectedTotal | convex/dashboard.ts:194-232 | a group's dashboard balance equals the caller's total in the group ledger once the debtor is debited (see Findings) |
| Reminders.Put | convex/inngest.ts:46 | `ledger.set`: the key gets the value and every other key keeps its entry |
| Reminders.PutShaped | convex/inngest.ts:46 | `ledger.set` keeps one key per entry in iteration order |
| Reminders.RemoveKey | convex/inngest.ts:69 | the iteration order without that key, still duplicate-free |
| Reminders.Delete | convex/inngest.ts:69 | `ledger.delete`: the key has no entry and every other key keeps its entry |
| Reminders.DeleteShaped | convex/inngest.ts:69 | `ledger.delete` keeps one key per entry |
| Reminders.BumpTwice | convex/inngest.ts:44-58 | two changes on the same date are one change by their sum |
| Reminders.EarliestIsMinimum | convex/inngest.ts:40-58 | the earliest date is the smallest date of an expense between the pair with an unpaid share, and exists exactly when one does |
| Reminders.PaidSplitsAt | convex/inngest.ts:50-60 | an expense the user paid lowers each other holder's entry by their unpaid shares and leaves the rest |
| Reminders.ExpenseAt | convex/inngest.ts:33-61 | one expense changes only the entries of counterparts it ties to the user by an unpaid share |
| Reminders.ExpensesDebtAt | convex/inngest.ts:33-62 | after the expense loop a counterpart's entry holds the net the user owes them and the earliest date of an expense between them with an unpaid share (they paid and the user holds an unpaid split, or the user paid and they hold one), and exists exactly when some such expense exists |
| Reminders.NoSelfEntry | convex/inngest.ts:34-51 | the ledger never holds the user's own id |
| Reminders.PaidSplitsShaped | convex/inngest.ts:50-60 | the split loop keeps one key per entry |
| Reminders.ExpensesShaped | convex/inngest.ts:33-62 | the expense loop keeps one key per entry |
| Reminders.SettleAllAt | convex/inngest.ts:64-81 | the settlement loop acts on each entry on its own |
| Reminders.EntryAfterKeeps | convex/inngest.ts:64-81 | settlements never create an entry or change its date, and an entry they leave at zero is untouched |
| Reminders.EntryAfterUnsettled | convex/inngest.ts:64-81 | an entry no settlement touches is unchanged |
| Reminders.SettleAllShaped | convex/inngest.ts:64-81 | the settlement loop keeps one key per entry |
| Reminders.DebtsOf | convex/inngest.ts:82-95 | exactly the positive entries whose counterpart has a user row, each with that name, amount and date, none twice |
| Reminders.PersonalExpenses | convex/inngest.ts:10-12 | exactly the non-group expenses |
| Reminders.PersonalSettlements | convex/inngest.ts:15-17 | exactly the non-group settlements |
| Reminders.RemindersOf | convex/inngest.ts:30-105 | one reminder per user with at least one debt, and none for a user without |
| Reminders.ReportedDebt | convex/inngest.ts:30-95 | a reported debt is owed to someone else, is positive, dates from the earliest expense between the pair with an unpaid share, and is the net owed after the settlements |
| Reminders.UnsettledDebtReported | convex/inngest.ts:30-95 | a positive net owed to a known user with no settlement between them is reported in full |
| Reminders.GetUserWithOutstandingDebts | convex/inngest.ts:5-108 | the job's answer is the specified reminders |
| Reminders.BuildLedger | convex/inngest.ts:33-62 | the expense loop computes the specified ledger |
| Reminders.SubtractSplits | convex/inngest.ts:50-60 | the split loop computes the specified ledger |
| Reminders.SettleLedger | convex/inngest.ts:64-81 | the settlement loop computes the specified ledger |
| Reminders.CollectDebts | convex/inngest.ts:82-95 | the debt loop computes the specified debts |
| Reminders.ActiveUsers | convex/inngest.ts:120-145 | exactly the users who paid or hold a split in a recent expense |
| Reminders.GetUserWithExpenses | convex/inngest.ts:110-149 | the query's answer is the specified active users |
| Reminders.InvolvedRecent | convex/inngest.ts:166-171 | exactly the recent expenses the user paid or holds a split in |
| Reminders.UserMonthlyExpenses | convex/inngest.ts:173-184 | one row per such expense, in order, with its fields and the payer and group flags |
| Reminders.ActiveIffMonthlyRows | convex/inngest.ts:120-171 | a user is reported active exactly when their monthly expense list is non-empty |

## Left out

- Authentication is not modelled. The caller's user id is a parameter, and
  `getCurrentUser` as called through `runQuery` is taken to succeed. The
  identity given to `store` and `getCurrentUser` is an `Option` parameter.
- Convex storage is not modelled. Each table is a sequence in table order,
  and an index or filter query is the filter of that sequence. A new group's
  id and `Date.now()` are parameters (`newId`, `now`), a created
  settlement is returned as a record without an id, and a new user's id
  is one more than the largest existing id (0 in an empty table), which
  `Users.FreshId` fixes.
- The calendar is not modelled. `startOfYear`, the twelve month starts and
  the month-start of each date (`monthOf`) are parameters, and so is the
  one-month-ago cut-off of the reminder job.
- Floating point is not modelled: amounts are integers (minor units), so
  `net == 0` and the `Math.max` clamps are exact.
- `Promise.all` and the reminder job's `userCache` are left out. Each
  lookup is a pure function of the table.
- Full-text search is not modelled. The `search_name` and `search_email`
  results are inputs of `Users.SearchUsers`.
- `getGroupExpenses` computes its ledger and totals but returns nothing.
  The model returns them, so that their contents can be stated.
- Groups.GetGroupExpenses: requires that every roster member has a user row
  and that the group's records name only roster members. Otherwise the code
  indexes a missing ledger row (a `TypeError`) or turns a cell into `NaN`.
  It also requires that no group settlement has the same payer and receiver.
  Such a settlement reads the missing cell `ledger[p][p]` and makes it `NaN`.
  `createSettlement` rejects it (convex/settlements.ts:52), so stored data
  meets this requirement. Those crash paths are not modelled.
- Settlements.GroupSettlementData: requires that the caller's own group
  expenses split only among roster members. Otherwise
  `balances[split.userId].owed` throws a `TypeError`, and that path is not
  modelled.
- Dashboard.MonthlySpending: requires that each of the caller's shares falls
  in one of the twelve seeded months. An expense dated in a later year makes
  the code add to a missing key, which gives `NaN` and a thirteenth row; that
  is not modelled.
- Dashboard.GroupBalanceIsCorrectedTotal: assumes each member holds at most
  one split per expense and no settlement is from a member to themself. The
  dashboard reads only the first split, while the ledger counts all of them.
- Users.StoreIdempotent: the table stays unchanged on a second `store` only
  when the identity carries a name. `Users.StoreNamelessTwice` shows the
  nameless case, where the name is patched to missing.
- `getUserMonthlyExpenses` computes `userSplit` and never uses it, so the
  model has no counterpart for it.
- The `"email" in u && "name" in u` test of `getAllContacts` is modelled as
  both optional fields being present.
- ExpenseCategories.Lookup: only the table's own keys are found. A key that
  names an inherited JavaScript property (such as `"toString"`) is not
  modelled.

## Findings

| source | as written | input that shows it | evidently intended | confidence | as-written member | corrected member |
|---|---|---|---|---|---|---|
| convex/groups.ts:157 | `totals[debtor] += amt` credits the debtor with the share they owe, exactly as the payer is credited on line 156, so the group's totals add up to twice the unpaid debt | a group of members 1 and 2 with one expense of 20 paid by 1 and an unpaid share of 10 for 2: both totals read 10 and sum to 20, while the ledger says 2 owes 1 ten | `totals[debtor] -= amt`, so that the totals add up to zero and each member's total is their balance in the ledger (what others owe them minus what they owe); the settlement lines 164-165 already move the two parties' totals in opposite directions | not executed | GroupLedger.TotalsDoNotBalance | GroupLedger.CorrectedTotalsSumZero |

`Groups.GetGroupExpenses` keeps the totals as the code computes them,
because that is what the function does. `GroupLedger.GroupTotalsSumAsWritten`
proves their sum is twice the booked debt for any input. The corrected totals
`GroupLedger.CorrectedTotals` are the ones the rest of the model uses:
- `GroupLedger.CorrectedTotalsAreBalances` proves they equal each member's
  balance in the final ledger;
- `Dashboard.GroupBalanceIsCorrectedTotal` proves the dashboard's
  `getUserGroups` balance equals the caller's corrected total.
