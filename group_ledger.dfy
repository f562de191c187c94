/**
 * What the tables of `getGroupExpenses` mean. The ledger is given in closed
 * form: each cell is the netted difference of what the debtor owes the
 * creditor through unpaid splits, less what the debtor has already settled.
 * The totals, as written, count every booked split twice, once for the
 * payer and once for the debtor. The corrected totals (payer up, debtor
 * down) add up to zero, and each equals the member's net position in the
 * final ledger.
 */
module GroupLedger {

  import opened Records
  import opened Groups

  // ---------------------------------------------------------------------
  // The ledger in closed form
  // ---------------------------------------------------------------------

  /** What the splits of one expense paid by `payer` make `a` owe `b`. */
  function SplitDebt(payer: UserId, splits: seq<Split>, a: UserId, b: UserId): int
    decreases |splits|
  {
    if splits == [] then 0
    else
      var s := splits[|splits| - 1];
      SplitDebt(payer, splits[..|splits| - 1], a, b) + (if Counted(payer, s) && s.userId == a && payer == b then s.amount else 0)
  }

  /** What the unpaid splits of `exps` make `a` owe `b`. */
  function Owes(exps: seq<Expense>, a: UserId, b: UserId): int
    decreases |exps|
  {
    if exps == [] then 0
    else
      var e := exps[|exps| - 1];
      Owes(exps[..|exps| - 1], a, b) + SplitDebt(e.paidBy, e.splits, a, b)
  }

  /** What `a` has paid `b` through the settlements `sts`. */
  function Repaid(sts: seq<Settlement>, a: UserId, b: UserId): int
    decreases |sts|
  {
    if sts == [] then 0
    else
      var s := sts[|sts| - 1];
      Repaid(sts[..|sts| - 1], a, b) + (if s.paidBy == a && s.receivedBy == b then s.amount else 0)
  }

  /** What `a` still owes `b`: the unpaid splits less the settlements. */
  function Outstanding(exps: seq<Expense>, sts: seq<Settlement>, a: UserId, b: UserId): int {
    Owes(exps, a, b) - Repaid(sts, a, b)
  }

  lemma GrowsTrans(L: Ledger, M: Ledger, N: Ledger)
    requires Grows(L, M) && Grows(M, N)
    ensures Grows(L, N)
  {
  }

  /** The split loop of one expense adds the expense's debts to each cell and removes no cell. */
  lemma {:induction false} SplitsEntry(B: GroupBook, payer: UserId, splits: seq<Split>, a: UserId, b: UserId)
    ensures Entry(BookSplits(B, payer, splits).ledger, a, b) == Entry(B.ledger, a, b) + SplitDebt(payer, splits, a, b)
    ensures Grows(B.ledger, BookSplits(B, payer, splits).ledger)
    decreases |splits|
  {
    if splits != [] {
      var front, s := splits[..|splits| - 1], splits[|splits| - 1];
      SplitsEntry(B, payer, front, a, b);
      var M := BookSplits(B, payer, front);
      if Counted(payer, s) {
        BumpEntries(M.ledger, s.userId, payer, s.amount);
        GrowsTrans(B.ledger, M.ledger, BookSplits(B, payer, splits).ledger);
      }
    }
  }

  /** The expense loop adds every expense's debts to each cell and removes no cell. */
  lemma {:induction false} ExpensesEntry(B: GroupBook, exps: seq<Expense>, a: UserId, b: UserId)
    ensures Entry(BookExpenses(B, exps).ledger, a, b) == Entry(B.ledger, a, b) + Owes(exps, a, b)
    ensures Grows(B.ledger, BookExpenses(B, exps).ledger)
    decreases |exps|
  {
    if exps != [] {
      var front, e := exps[..|exps| - 1], exps[|exps| - 1];
      ExpensesEntry(B, front, a, b);
      var M := BookExpenses(B, front);
      SplitsEntry(M, e.paidBy, e.splits, a, b);
      GrowsTrans(B.ledger, M.ledger, BookExpenses(B, exps).ledger);
    }
  }

  /** The settlement loop takes every settlement off its payer's cell towards the receiver and removes no cell. */
  lemma {:induction false} SettlementsEntry(B: GroupBook, sts: seq<Settlement>, a: UserId, b: UserId)
    ensures Entry(BookSettlements(B, sts).ledger, a, b) == Entry(B.ledger, a, b) - Repaid(sts, a, b)
    ensures Grows(B.ledger, BookSettlements(B, sts).ledger)
    decreases |sts|
  {
    if sts != [] {
      var front, s := sts[..|sts| - 1], sts[|sts| - 1];
      SettlementsEntry(B, front, a, b);
      var M := BookSettlements(B, front);
      BumpEntries(M.ledger, s.paidBy, s.receivedBy, -s.amount);
      GrowsTrans(B.ledger, M.ledger, BookSettlements(B, sts).ledger);
    }
  }

  /** A raw cell is what the debtor owes through unpaid splits less what it has settled. */
  lemma RawEntry(ids: seq<UserId>, exps: seq<Expense>, sts: seq<Settlement>, a: UserId, b: UserId)
    requires a in ids && b in ids && a != b
    ensures var L := RawBook(ids, exps, sts).ledger;
            a in L && b in L[a] && L[a][b] == Outstanding(exps, sts, a, b)
  {
    var B0 := InitialBook(ids);
    var B1 := BookExpenses(B0, exps);
    assert a in B0.ledger && b in B0.ledger[a];
    ExpensesEntry(B0, exps, a, b);
    SettlementsEntry(B1, sts, a, b);
  }

  /**
   * The ledger `getGroupExpenses` builds: for two different members, the
   * cell from `a` to `b` is what `a` still owes `b` after offsetting what
   * `b` still owes `a`, so at most one of the two is positive and neither
   * is negative.
   */
  lemma GroupLedgerClosedForm(ids: seq<UserId>, exps: seq<Expense>, sts: seq<Settlement>, a: UserId, b: UserId)
    requires a in ids && b in ids && a != b
    ensures var L := Book(ids, exps, sts).ledger;
            && a in L && b in L[a] && b in L && a in L[b]
            && L[a][b] == Net(Outstanding(exps, sts, a, b), Outstanding(exps, sts, b, a))
            && L[a][b] >= 0 && (L[a][b] == 0 || L[b][a] == 0)
  {
    var raw := RawBook(ids, exps, sts).ledger;
    RawEntry(ids, exps, sts, a, b);
    RawEntry(ids, exps, sts, b, a);
    NettedCell(raw, a, b);
    NettedCell(raw, b, a);
    var L := Book(ids, exps, sts).ledger;
    assert L == Netted(raw);
    var x, y := raw[a][b], raw[b][a];
    assert L[a][b] == Net(x, y) && L[b][a] == Net(y, x);
    NetOneSided(x, y);
  }

  lemma NetOneSided(x: int, y: int)
    ensures Net(x, y) >= 0 && (Net(x, y) == 0 || Net(y, x) == 0)
  {
  }

  /** The cancellation pass sets a cell with both directions present to its net value. */
  lemma NettedCell(L: Ledger, a: UserId, b: UserId)
    requires a in L && b in L[a] && b in L && a in L[b]
    ensures a in Netted(L) && b in Netted(L)[a] && Netted(L)[a][b] == Net(L[a][b], L[b][a])
  {
  }

  // ---------------------------------------------------------------------
  // The totals
  // ---------------------------------------------------------------------

  /** The sum of the totals of the members `ids`. */
  function SumOver(T: Totals, ids: seq<UserId>): int
    decreases |ids|
  {
    if ids == [] then 0 else SumOver(T, ids[..|ids| - 1]) + Tot(T, ids[|ids| - 1])
  }

  /** `totals[u] += d` adds `d` to the sum over a roster holding `u` once, and nothing to one without it. */
  lemma {:induction false} SumOverCredit(T: Totals, ids: seq<UserId>, u: UserId, d: int)
    requires Distinct(ids)
    ensures SumOver(Credit(T, u, d), ids) == SumOver(T, ids) + (if u in ids then d else 0)
    decreases |ids|
  {
    if ids != [] {
      var front := ids[..|ids| - 1];
      DistinctFront(ids);
      SumOverCredit(T, front, u, d);
      assert forall x :: x in ids <==> x in front || x == ids[|ids| - 1];
    }
  }

  /** Totals that are zero on every member sum to zero. */
  lemma {:induction false} SumOverZero(T: Totals, ids: seq<UserId>)
    requires forall u :: u in ids ==> Tot(T, u) == 0
    ensures SumOver(T, ids) == 0
    decreases |ids|
  {
    if ids != [] {
      SumOverZero(T, ids[..|ids| - 1]);
    }
  }

  /** The amount of every split the expense loop books. */
  function BookedSplits(payer: UserId, splits: seq<Split>): int
    decreases |splits|
  {
    if splits == [] then 0
    else
      var s := splits[|splits| - 1];
      BookedSplits(payer, splits[..|splits| - 1]) + (if Counted(payer, s) then s.amount else 0)
  }

  function Booked(exps: seq<Expense>): int
    decreases |exps|
  {
    if exps == [] then 0
    else
      var e := exps[|exps| - 1];
      Booked(exps[..|exps| - 1]) + BookedSplits(e.paidBy, e.splits)
  }

  /** Every split the loop books is between members. */
  predicate SplitsWithin(ids: seq<UserId>, payer: UserId, splits: seq<Split>) {
    forall s :: s in splits && Counted(payer, s) ==> s.userId in ids && payer in ids
  }

  /** As written, each booked split raises the sum of the totals by twice its amount. */
  lemma {:induction false} SplitsTotalsSum(B: GroupBook, ids: seq<UserId>, payer: UserId, splits: seq<Split>)
    requires Distinct(ids) && SplitsWithin(ids, payer, splits)
    ensures SumOver(BookSplits(B, payer, splits).totals, ids) == SumOver(B.totals, ids) + 2 * BookedSplits(payer, splits)
    decreases |splits|
  {
    if splits != [] {
      var front, s := splits[..|splits| - 1], splits[|splits| - 1];
      SplitsTotalsSum(B, ids, payer, front);
      var T := BookSplits(B, payer, front).totals;
      if Counted(payer, s) {
        SumOverCredit(T, ids, payer, s.amount);
        SumOverCredit(Credit(T, payer, s.amount), ids, s.userId, s.amount);
      }
    }
  }

  /** The expense loop's totals update as written: both the payer's and the debtor's total go up. */
  function CreditSplits(T: Totals, payer: UserId, splits: seq<Split>): Totals
    decreases |splits|
  {
    if splits == [] then T
    else
      var s := splits[|splits| - 1];
      var M := CreditSplits(T, payer, splits[..|splits| - 1]);
      if Counted(payer, s) then Credit(Credit(M, payer, s.amount), s.userId, s.amount) else M
  }

  function CreditExpenses(T: Totals, exps: seq<Expense>): Totals
    decreases |exps|
  {
    if exps == [] then T
    else
      var e := exps[|exps| - 1];
      CreditSplits(CreditExpenses(T, exps[..|exps| - 1]), e.paidBy, e.splits)
  }

  lemma {:induction false} SplitsTotals(B: GroupBook, payer: UserId, splits: seq<Split>)
    ensures BookSplits(B, payer, splits).totals == CreditSplits(B.totals, payer, splits)
    decreases |splits|
  {
    if splits != [] {
      SplitsTotals(B, payer, splits[..|splits| - 1]);
    }
  }

  lemma {:induction false} ExpensesTotals(B: GroupBook, exps: seq<Expense>)
    ensures BookExpenses(B, exps).totals == CreditExpenses(B.totals, exps)
    decreases |exps|
  {
    if exps != [] {
      var front, e := exps[..|exps| - 1], exps[|exps| - 1];
      ExpensesTotals(B, front);
      var M := BookExpenses(B, front);
      SplitsTotals(M, e.paidBy, e.splits);
    }
  }

  lemma {:induction false} ExpensesTotalsSum(B: GroupBook, ids: seq<UserId>, exps: seq<Expense>)
    requires Distinct(ids) && ExpensesWithin(ids, exps)
    ensures SumOver(BookExpenses(B, exps).totals, ids) == SumOver(B.totals, ids) + 2 * Booked(exps)
    decreases |exps|
  {
    if exps != [] {
      var front, e := exps[..|exps| - 1], exps[|exps| - 1];
      assert ExpensesWithin(ids, front) by {
        forall x | x in front ensures x in exps {}
      }
      ExpensesTotalsSum(B, ids, front);
      SplitsTotalsSum(BookExpenses(B, front), ids, e.paidBy, e.splits);
    }
  }

  /** The settlement loop's totals update: the payer's total up, the receiver's down. */
  function SettleTotals(T: Totals, sts: seq<Settlement>): Totals
    decreases |sts|
  {
    if sts == [] then T
    else
      var s := sts[|sts| - 1];
      Credit(Credit(SettleTotals(T, sts[..|sts| - 1]), s.paidBy, s.amount), s.receivedBy, -s.amount)
  }

  lemma {:induction false} SettlementsTotals(B: GroupBook, sts: seq<Settlement>)
    ensures BookSettlements(B, sts).totals == SettleTotals(B.totals, sts)
    decreases |sts|
  {
    if sts != [] {
      SettlementsTotals(B, sts[..|sts| - 1]);
    }
  }

  /** A settlement between two members moves an amount from one total to the other and keeps the sum. */
  lemma {:induction false} SettleTotalsSum(T: Totals, ids: seq<UserId>, sts: seq<Settlement>)
    requires Distinct(ids) && SettlementsWithin(ids, sts)
    ensures SumOver(SettleTotals(T, sts), ids) == SumOver(T, ids)
    decreases |sts|
  {
    if sts != [] {
      var front, s := sts[..|sts| - 1], sts[|sts| - 1];
      assert SettlementsWithin(ids, front) by {
        forall x | x in front ensures x in sts {}
      }
      SettleTotalsSum(T, ids, front);
      var M := SettleTotals(T, front);
      SumOverCredit(M, ids, s.paidBy, s.amount);
      SumOverCredit(Credit(M, s.paidBy, s.amount), ids, s.receivedBy, -s.amount);
    }
  }

  /**
   * The totals as written: over a roster of distinct members, they add up
   * to twice the amount of the booked splits rather than to zero.
   */
  lemma GroupTotalsSumAsWritten(ids: seq<UserId>, exps: seq<Expense>, sts: seq<Settlement>)
    requires Distinct(ids) && ExpensesWithin(ids, exps) && SettlementsWithin(ids, sts)
    ensures SumOver(Book(ids, exps, sts).totals, ids) == 2 * Booked(exps)
  {
    var B0 := InitialBook(ids);
    SumOverZero(B0.totals, ids);
    ExpensesTotalsSum(B0, ids, exps);
    var B1 := BookExpenses(B0, exps);
    SettlementsTotals(B1, sts);
    SettleTotalsSum(B1.totals, ids, sts);
  }

  /** Member 2 owes member 1 ten units through one split; both totals read 10 and their sum is 20. */
  lemma TotalsDoNotBalance()
    ensures var B := Book([1, 2], [Dinner], []);
            && B.totals == map[1 := 10, 2 := 10]
            && SumOver(B.totals, [1, 2]) == 20
            && 2 in B.ledger && 1 in B.ledger[2] && B.ledger[2][1] == 10
  {
    DinnerTotals();
    DinnerLedger();
    var B1 := BookExpenses(InitialBook([1, 2]), [Dinner]);
    assert BookSettlements(B1, []) == B1;
    assert [1, 2][..1] == [1] && [1][..0] == [];
  }

  /** An expense of 20 paid by member 1, split evenly with member 2, whose share is unpaid. */
  const Dinner := Expense("dinner", 20, "food", 0, 1, Some(7), [Split(1, 10, true), Split(2, 10, false)], 1)

  lemma DinnerTotals()
    ensures BookExpenses(InitialBook([1, 2]), [Dinner]).totals == map[1 := 10, 2 := 10]
  {
    ExpensesTotals(InitialBook([1, 2]), [Dinner]);
    PairTotals();
    DinnerCredits();
  }

  lemma PairTotals()
    ensures InitialTotals([1, 2]) == map[1 := 0, 2 := 0]
  {
    var T := InitialTotals([1, 2]);
    assert T.Keys == {1, 2} by {
      assert forall u :: u in T <==> u == 1 || u == 2;
    }
  }

  lemma DinnerCredits()
    ensures CreditExpenses(map[1 := 0, 2 := 0], [Dinner]) == map[1 := 10, 2 := 10]
  {
    var s1, s2 := Split(1, 10, true), Split(2, 10, false);
    var T0: Totals := map[1 := 0, 2 := 0];
    assert [Dinner][..0] == [];
    assert CreditExpenses(T0, [Dinner]) == CreditSplits(T0, 1, [s1, s2]);
    assert [s1, s2][..1] == [s1] && [s1][..0] == [];
    assert CreditSplits(T0, 1, [s1]) == T0;
    var T1 := Credit(T0, 1, 10);
    assert T1 == map[1 := 10, 2 := 0];
  }

  lemma DinnerLedger()
    ensures var L := Book([1, 2], [Dinner], []).ledger;
            2 in L && 1 in L[2] && L[2][1] == 10
  {
    var s1, s2 := Split(1, 10, true), Split(2, 10, false);
    assert [Dinner][..0] == [] && [s1, s2][..1] == [s1] && [s1][..0] == [];
    assert SplitDebt(1, [s1], 2, 1) == 0;
    assert SplitDebt(1, [s1, s2], 2, 1) == 10;
    assert SplitDebt(1, [s1], 1, 2) == 0;
    assert SplitDebt(1, [s1, s2], 1, 2) == 0;
    assert Owes([Dinner], 2, 1) == Owes([], 2, 1) + SplitDebt(1, [s1, s2], 2, 1);
    assert Owes([Dinner], 1, 2) == Owes([], 1, 2) + SplitDebt(1, [s1, s2], 1, 2);
    assert Outstanding([Dinner], [], 2, 1) == 10;
    assert Outstanding([Dinner], [], 1, 2) == 0;
    GroupLedgerClosedForm([1, 2], [Dinner], [], 2, 1);
  }

  /** The evidently intended split update: the payer is owed the amount, the debtor owes it. */
  function NetSplits(T: Totals, payer: UserId, splits: seq<Split>): Totals
    decreases |splits|
  {
    if splits == [] then T
    else
      var s := splits[|splits| - 1];
      var M := NetSplits(T, payer, splits[..|splits| - 1]);
      if Counted(payer, s) then Credit(Credit(M, payer, s.amount), s.userId, -s.amount) else M
  }

  function NetExpenses(T: Totals, exps: seq<Expense>): Totals
    decreases |exps|
  {
    if exps == [] then T
    else
      var e := exps[|exps| - 1];
      NetSplits(NetExpenses(T, exps[..|exps| - 1]), e.paidBy, e.splits)
  }

  /** The totals with the split update corrected; the settlement update is kept as written. */
  function CorrectedTotals(ids: seq<UserId>, exps: seq<Expense>, sts: seq<Settlement>): Totals {
    SettleTotals(NetExpenses(InitialTotals(ids), exps), sts)
  }

  lemma {:induction false} NetSplitsSum(T: Totals, ids: seq<UserId>, payer: UserId, splits: seq<Split>)
    requires Distinct(ids) && SplitsWithin(ids, payer, splits)
    ensures SumOver(NetSplits(T, payer, splits), ids) == SumOver(T, ids)
    decreases |splits|
  {
    if splits != [] {
      var front, s := splits[..|splits| - 1], splits[|splits| - 1];
      NetSplitsSum(T, ids, payer, front);
      var M := NetSplits(T, payer, front);
      if Counted(payer, s) {
        SumOverCredit(M, ids, payer, s.amount);
        SumOverCredit(Credit(M, payer, s.amount), ids, s.userId, -s.amount);
      }
    }
  }

  lemma {:induction false} NetExpensesSum(T: Totals, ids: seq<UserId>, exps: seq<Expense>)
    requires Distinct(ids) && ExpensesWithin(ids, exps)
    ensures SumOver(NetExpenses(T, exps), ids) == SumOver(T, ids)
    decreases |exps|
  {
    if exps != [] {
      var front, e := exps[..|exps| - 1], exps[|exps| - 1];
      assert ExpensesWithin(ids, front) by {
        forall x | x in front ensures x in exps {}
      }
      NetExpensesSum(T, ids, front);
      NetSplitsSum(NetExpenses(T, front), ids, e.paidBy, e.splits);
    }
  }

  /** The corrected totals of a roster of distinct members add up to zero. */
  lemma CorrectedTotalsSumZero(ids: seq<UserId>, exps: seq<Expense>, sts: seq<Settlement>)
    requires Distinct(ids) && ExpensesWithin(ids, exps) && SettlementsWithin(ids, sts)
    ensures SumOver(CorrectedTotals(ids, exps, sts), ids) == 0
  {
    var T0 := InitialTotals(ids);
    SumOverZero(T0, ids);
    NetExpensesSum(T0, ids, exps);
    SettleTotalsSum(NetExpenses(T0, exps), ids, sts);
  }

  // ---------------------------------------------------------------------
  // The corrected totals are the members' net positions in the ledger
  // ---------------------------------------------------------------------

  /** What the members `ids` owe `u` in `L`, less what `u` owes them. */
  function Balance(L: Ledger, ids: seq<UserId>, u: UserId): int
    decreases |ids|
  {
    if ids == [] then 0
    else
      var x := ids[|ids| - 1];
      Balance(L, ids[..|ids| - 1], u) + Entry(L, x, u) - Entry(L, u, x)
  }

  /** `ledger[d][p] += amt` raises `p`'s balance and lowers `d`'s by `amt`, counting only members. */
  lemma {:induction false} BalanceBump(L: Ledger, ids: seq<UserId>, d: UserId, p: UserId, amt: int, u: UserId)
    requires Distinct(ids) && d != p
    ensures Balance(Bump(L, d, p, amt), ids, u)
            == Balance(L, ids, u) + (if u == p && d in ids then amt else 0) - (if u == d && p in ids then amt else 0)
    decreases |ids|
  {
    if ids != [] {
      var front, x := ids[..|ids| - 1], ids[|ids| - 1];
      DistinctFront(ids);
      BalanceBump(L, front, d, p, amt, u);
      BumpEntries(L, d, p, amt);
      assert forall y :: y in ids <==> y in front || y == x;
    }
  }

  /** A ledger of zero cells gives every balance zero. */
  lemma {:induction false} BalanceZero(L: Ledger, ids: seq<UserId>, u: UserId)
    requires forall a, b :: a in L && b in L[a] ==> L[a][b] == 0
    ensures Balance(L, ids, u) == 0
    decreases |ids|
  {
    if ids != [] {
      BalanceZero(L, ids[..|ids| - 1], u);
    }
  }

  /** One expense's splits move `u`'s corrected total and `u`'s balance alike. */
  lemma {:induction false} SplitsBalance(B: GroupBook, T: Totals, ids: seq<UserId>, payer: UserId, splits: seq<Split>, u: UserId)
    requires Distinct(ids) && SplitsWithin(ids, payer, splits)
    ensures Tot(NetSplits(T, payer, splits), u) - Balance(BookSplits(B, payer, splits).ledger, ids, u)
            == Tot(T, u) - Balance(B.ledger, ids, u)
    decreases |splits|
  {
    if splits != [] {
      var front, s := splits[..|splits| - 1], splits[|splits| - 1];
      SplitsBalance(B, T, ids, payer, front, u);
      if Counted(payer, s) {
        BalanceBump(BookSplits(B, payer, front).ledger, ids, s.userId, payer, s.amount, u);
      }
    }
  }

  lemma {:induction false} ExpensesBalance(B: GroupBook, T: Totals, ids: seq<UserId>, exps: seq<Expense>, u: UserId)
    requires Distinct(ids) && ExpensesWithin(ids, exps)
    ensures Tot(NetExpenses(T, exps), u) - Balance(BookExpenses(B, exps).ledger, ids, u)
            == Tot(T, u) - Balance(B.ledger, ids, u)
    decreases |exps|
  {
    if exps != [] {
      var front, e := exps[..|exps| - 1], exps[|exps| - 1];
      assert ExpensesWithin(ids, front) by {
        forall x | x in front ensures x in exps {}
      }
      ExpensesBalance(B, T, ids, front, u);
      SplitsBalance(BookExpenses(B, front), NetExpenses(T, front), ids, e.paidBy, e.splits, u);
    }
  }

  lemma {:induction false} SettlementsBalance(B: GroupBook, T: Totals, ids: seq<UserId>, sts: seq<Settlement>, u: UserId)
    requires Distinct(ids) && SettlementsWithin(ids, sts)
    ensures Tot(SettleTotals(T, sts), u) - Balance(BookSettlements(B, sts).ledger, ids, u)
            == Tot(T, u) - Balance(B.ledger, ids, u)
    decreases |sts|
  {
    if sts != [] {
      var front, s := sts[..|sts| - 1], sts[|sts| - 1];
      assert SettlementsWithin(ids, front) by {
        forall x | x in front ensures x in sts {}
      }
      SettlementsBalance(B, T, ids, front, u);
      assert s in sts;
      SettlementBalanceStep(BookSettlements(B, front).ledger, SettleTotals(T, front), ids, s, u);
    }
  }

  /** One settlement moves a member's total and its ledger balance alike. */
  lemma SettlementBalanceStep(L: Ledger, T: Totals, ids: seq<UserId>, s: Settlement, u: UserId)
    requires Distinct(ids) && s.paidBy in ids && s.receivedBy in ids && s.paidBy != s.receivedBy
    ensures Tot(Credit(Credit(T, s.paidBy, s.amount), s.receivedBy, -s.amount), u)
              - Balance(Bump(L, s.paidBy, s.receivedBy, -s.amount), ids, u)
            == Tot(T, u) - Balance(L, ids, u)
  {
    BalanceBump(L, ids, s.paidBy, s.receivedBy, -s.amount, u);
  }

  /** The cancellation pass keeps the difference of every pair of opposing cells. */
  lemma NettedDifference(L: Ledger, a: UserId, b: UserId)
    ensures Entry(Netted(L), a, b) - Entry(Netted(L), b, a) == Entry(L, a, b) - Entry(L, b, a)
  {
    if a in L && b in L[a] && b in L && a in L[b] {
      NettedCell(L, a, b);
      NettedCell(L, b, a);
    }
  }

  /** So it keeps every balance. */
  lemma {:induction false} NettedBalance(L: Ledger, ids: seq<UserId>, u: UserId)
    ensures Balance(Netted(L), ids, u) == Balance(L, ids, u)
    decreases |ids|
  {
    if ids != [] {
      NettedBalance(L, ids[..|ids| - 1], u);
      NettedDifference(L, ids[|ids| - 1], u);
    }
  }

  /**
   * Each corrected total is the member's net position in the ledger
   * `getGroupExpenses` returns: what the others still owe it less what it
   * still owes them.
   */
  lemma CorrectedTotalsAreBalances(ids: seq<UserId>, exps: seq<Expense>, sts: seq<Settlement>, u: UserId)
    requires Distinct(ids) && ExpensesWithin(ids, exps) && SettlementsWithin(ids, sts)
    ensures Tot(CorrectedTotals(ids, exps, sts), u) == Balance(Book(ids, exps, sts).ledger, ids, u)
  {
    var B0 := InitialBook(ids);
    var T0 := InitialTotals(ids);
    BalanceZero(B0.ledger, ids, u);
    ExpensesBalance(B0, T0, ids, exps, u);
    var B1, T1 := BookExpenses(B0, exps), NetExpenses(T0, exps);
    SettlementsBalance(B1, T1, ids, sts, u);
    NettedBalance(RawBook(ids, exps, sts).ledger, ids, u);
  }
}
