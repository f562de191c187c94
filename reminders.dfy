/**
 * The queries behind the scheduled reminder and report jobs: each user's
 * outstanding personal debts (`getUserWithOutstandingDebts`), the users
 * active in the last month (`getUserWithExpenses`) and one user's
 * expenses of the last month (`getUserMonthlyExpenses`).
 */
module Reminders {

  import opened Records

  // ---------------------------------------------------------------------
  // The per-user ledger: a Map from counterparty to { amount, since }
  // ---------------------------------------------------------------------

  datatype DebtEntry = DebtEntry(amount: int, since: int)

  /** The Map: its keys in insertion order, and its entries. */
  datatype DebtLedger = DebtLedger(keys: seq<UserId>, vals: map<UserId, DebtEntry>)

  const EmptyLedger := DebtLedger([], map[])

  /** The keys are the entries' counterparties, each once. */
  ghost predicate Shaped(L: DebtLedger) {
    Distinct(L.keys) && forall k :: k in L.vals <==> k in L.keys
  }

  /** `ledger.get(k)` */
  function Get(L: DebtLedger, k: UserId): Option<DebtEntry> {
    if k in L.vals then Some(L.vals[k]) else None
  }

  function SetVal(vals: map<UserId, DebtEntry>, k: UserId, v: DebtEntry): map<UserId, DebtEntry> {
    vals[k := v]
  }

  /** `ledger.set(k, v)`: a new key goes last in the iteration order, an existing one keeps its place. */
  function Put(L: DebtLedger, k: UserId, v: DebtEntry): (r: DebtLedger)
    ensures Get(r, k) == Some(v)
    ensures forall x :: x != k ==> Get(r, x) == Get(L, x)
  {
    if k in L.vals then DebtLedger(L.keys, SetVal(L.vals, k, v)) else DebtLedger(L.keys + [k], SetVal(L.vals, k, v))
  }

  lemma PutShaped(L: DebtLedger, k: UserId, v: DebtEntry)
    requires Shaped(L)
    ensures Shaped(Put(L, k, v))
  {
    if k !in L.vals {
      assert k !in L.keys;
    }
  }

  /** The keys without `k`, in the same order. */
  function RemoveKey(keys: seq<UserId>, k: UserId): (r: seq<UserId>)
    ensures forall x :: x in r <==> x in keys && x != k
    ensures Distinct(keys) ==> Distinct(r)
    decreases |keys|
  {
    if keys == [] then []
    else
      var front := RemoveKey(keys[..|keys| - 1], k);
      var x := keys[|keys| - 1];
      assert forall y :: y in keys <==> y in keys[..|keys| - 1] || y == x;
      assert Distinct(keys) ==> Distinct(keys[..|keys| - 1]) && x !in keys[..|keys| - 1];
      if x == k then front else front + [x]
  }

  /** `ledger.delete(k)` */
  function Delete(L: DebtLedger, k: UserId): (r: DebtLedger)
    ensures Get(r, k) == None
    ensures forall x :: x != k ==> Get(r, x) == Get(L, x)
  {
    DebtLedger(RemoveKey(L.keys, k), L.vals - {k})
  }

  lemma DeleteShaped(L: DebtLedger, k: UserId)
    requires Shaped(L)
    ensures Shaped(Delete(L, k))
  {
  }

  function Min(a: int, b: int): int {
    if a <= b then a else b
  }

  /**
   * `entry.amount += d; entry.since = Math.min(entry.since, date)` on the
   * present entry, or on a fresh `{ amount: 0, since: date }`.
   */
  function Bump(o: Option<DebtEntry>, d: int, date: int): DebtEntry {
    if o.Some? then DebtEntry(o.value.amount + d, Min(o.value.since, date)) else DebtEntry(d, date)
  }

  /** The entry of `k`, bumped and set back. */
  function Charge(L: DebtLedger, k: UserId, d: int, date: int): DebtLedger {
    Put(L, k, Bump(Get(L, k), d, date))
  }

  /** Two bumps on the same date are one bump by their sum. */
  lemma BumpTwice(o: Option<DebtEntry>, d1: int, d2: int, date: int)
    ensures Bump(Some(Bump(o, d1, date)), d2, date) == Bump(o, d1 + d2, date)
  {
  }

  // ---------------------------------------------------------------------
  // The expense loop
  // ---------------------------------------------------------------------

  /** The splits of an expense `u` paid: every other unpaid split is subtracted from that participant's entry. */
  function PaidSplits(L: DebtLedger, u: UserId, splits: seq<Split>, date: int): DebtLedger
    decreases |splits|
  {
    if splits == [] then L
    else
      var s := splits[|splits| - 1];
      var M := PaidSplits(L, u, splits[..|splits| - 1], date);
      if s.userId == u || s.paid then M else Charge(M, s.userId, -s.amount, date)
  }

  /**
   * One personal expense: on another's expense, `u`'s first unpaid split
   * is added to the payer's entry; on `u`'s own, its splits are subtracted.
   */
  function ExpenseDebt(L: DebtLedger, u: UserId, e: Expense): DebtLedger {
    if e.paidBy != u then
      var split := FindUnpaidSplit(e.splits, u);
      if split.None? then L else Charge(L, e.paidBy, split.value.amount, e.date)
    else PaidSplits(L, u, e.splits, e.date)
  }

  function ExpensesDebt(L: DebtLedger, u: UserId, exps: seq<Expense>): DebtLedger
    decreases |exps|
  {
    if exps == [] then L else ExpenseDebt(ExpensesDebt(L, u, exps[..|exps| - 1]), u, exps[|exps| - 1])
  }

  // ---------------------------------------------------------------------
  // The expense loop, one counterparty at a time
  // ---------------------------------------------------------------------

  /** Some unpaid split of `k`. */
  predicate HasUnpaid(splits: seq<Split>, k: UserId) {
    exists s :: s in splits && s.userId == k && !s.paid
  }

  /** The unpaid splits of `k`, added up. */
  function UnpaidOf(splits: seq<Split>, k: UserId): int
    decreases |splits|
  {
    if splits == [] then 0
    else
      var s := splits[|splits| - 1];
      UnpaidOf(splits[..|splits| - 1], k) + (if s.userId == k && !s.paid then s.amount else 0)
  }

  /**
   * Whether an expense concerns what `u` and `k` owe each other: `k` paid
   * it and `u` holds an unpaid split, or `u` paid it and `k` (another
   * user) holds an unpaid split.
   */
  predicate Touches(e: Expense, u: UserId, k: UserId) {
    if e.paidBy != u then e.paidBy == k && FindUnpaidSplit(e.splits, u).Some?
    else k != u && HasUnpaid(e.splits, k)
  }

  /** What an expense adds to what `u` owes `k`. */
  function Delta(e: Expense, u: UserId, k: UserId): int {
    if e.paidBy != u then (if e.paidBy == k then AmountOf(FindUnpaidSplit(e.splits, u)) else 0)
    else if k != u then -UnpaidOf(e.splits, k)
    else 0
  }

  /** What `u` owes `k` over the expenses `exps`, negative when `k` owes `u`. */
  function OwedTo(exps: seq<Expense>, u: UserId, k: UserId): int
    decreases |exps|
  {
    if exps == [] then 0 else OwedTo(exps[..|exps| - 1], u, k) + Delta(exps[|exps| - 1], u, k)
  }

  /** The earliest date among the expenses between `u` and `k`, if any. */
  function Earliest(exps: seq<Expense>, u: UserId, k: UserId): (r: Option<int>)
    decreases |exps|
  {
    if exps == [] then None
    else
      var e := exps[|exps| - 1];
      var p := Earliest(exps[..|exps| - 1], u, k);
      if !Touches(e, u, k) then p
      else if p.Some? then Some(Min(p.value, e.date))
      else Some(e.date)
  }

  /** `Earliest` is the minimum: present iff some expense concerns the pair, and then the least such date. */
  lemma {:induction false} EarliestIsMinimum(exps: seq<Expense>, u: UserId, k: UserId)
    ensures Earliest(exps, u, k).Some? <==> exists i :: 0 <= i < |exps| && Touches(exps[i], u, k)
    ensures Earliest(exps, u, k).Some? ==>
              && (forall i :: 0 <= i < |exps| && Touches(exps[i], u, k) ==> Earliest(exps, u, k).value <= exps[i].date)
              && (exists i :: 0 <= i < |exps| && Touches(exps[i], u, k) && exps[i].date == Earliest(exps, u, k).value)
    decreases |exps|
  {
    if exps != [] {
      var front, e := exps[..|exps| - 1], exps[|exps| - 1];
      EarliestIsMinimum(front, u, k);
      var p := Earliest(front, u, k);
      assert forall i :: 0 <= i < |front| ==> exps[i] == front[i];
      if Touches(e, u, k) {
        if p.Some? {
          var j :| 0 <= j < |front| && Touches(front[j], u, k) && front[j].date == p.value;
          if p.value <= e.date {
            assert exps[j].date == Earliest(exps, u, k).value;
          } else {
            assert exps[|exps| - 1].date == Earliest(exps, u, k).value;
          }
        } else {
          assert exps[|exps| - 1].date == Earliest(exps, u, k).value;
        }
      } else {
        assert forall i :: 0 <= i < |exps| && Touches(exps[i], u, k) ==> i < |front|;
        if p.Some? {
          var j :| 0 <= j < |front| && Touches(front[j], u, k) && front[j].date == p.value;
          assert exps[j].date == p.value;
        }
      }
    }
  }

  /** The splits of `u`'s own expense move `k`'s entry by the unpaid splits of `k`, if `k` holds any. */
  lemma {:induction false} PaidSplitsAt(L: DebtLedger, u: UserId, splits: seq<Split>, date: int, k: UserId)
    ensures Get(PaidSplits(L, u, splits, date), k)
            == if k != u && HasUnpaid(splits, k) then Some(Bump(Get(L, k), -UnpaidOf(splits, k), date)) else Get(L, k)
    ensures !HasUnpaid(splits, k) ==> UnpaidOf(splits, k) == 0
    decreases |splits|
  {
    if splits != [] {
      var front, s := splits[..|splits| - 1], splits[|splits| - 1];
      PaidSplitsAt(L, u, front, date, k);
      assert forall x :: x in splits <==> x in front || x == s;
      var M := PaidSplits(L, u, front, date);
      if !(s.userId == u || s.paid) && s.userId == k {
        if HasUnpaid(front, k) {
          BumpTwice(Get(L, k), -UnpaidOf(front, k), -s.amount, date);
        }
      }
    }
  }

  /** One expense moves `k`'s entry by its delta, and only when it concerns the pair. */
  lemma ExpenseAt(L: DebtLedger, u: UserId, e: Expense, k: UserId)
    ensures Get(ExpenseDebt(L, u, e), k) == if Touches(e, u, k) then Some(Bump(Get(L, k), Delta(e, u, k), e.date)) else Get(L, k)
    ensures !Touches(e, u, k) ==> Delta(e, u, k) == 0
  {
    if e.paidBy == u {
      PaidSplitsAt(L, u, e.splits, e.date, k);
    }
  }

  /**
   * After the expense loop, the entry of `k` is present iff some expense
   * concerns the pair; its amount is what `u` owes `k` and its `since` the
   * earliest date among those expenses.
   */
  lemma {:induction false} ExpensesDebtAt(u: UserId, exps: seq<Expense>, k: UserId)
    ensures Get(ExpensesDebt(EmptyLedger, u, exps), k)
            == if Earliest(exps, u, k).Some? then Some(DebtEntry(OwedTo(exps, u, k), Earliest(exps, u, k).value)) else None
    ensures Earliest(exps, u, k).None? ==> OwedTo(exps, u, k) == 0
    decreases |exps|
  {
    if exps != [] {
      var front, e := exps[..|exps| - 1], exps[|exps| - 1];
      ExpensesDebtAt(u, front, k);
      ExpenseAt(ExpensesDebt(EmptyLedger, u, front), u, e, k);
    }
  }

  /** A user never holds an entry for itself. */
  lemma {:induction false} NoSelfEntry(u: UserId, exps: seq<Expense>)
    ensures Get(ExpensesDebt(EmptyLedger, u, exps), u) == None
  {
    ExpensesDebtAt(u, exps, u);
    EarliestIsMinimum(exps, u, u);
  }

  lemma {:induction false} PaidSplitsShaped(L: DebtLedger, u: UserId, splits: seq<Split>, date: int)
    requires Shaped(L)
    ensures Shaped(PaidSplits(L, u, splits, date))
    decreases |splits|
  {
    if splits != [] {
      var s := splits[|splits| - 1];
      var M := PaidSplits(L, u, splits[..|splits| - 1], date);
      PaidSplitsShaped(L, u, splits[..|splits| - 1], date);
      if !(s.userId == u || s.paid) {
        PutShaped(M, s.userId, Bump(Get(M, s.userId), -s.amount, date));
      }
    }
  }

  lemma {:induction false} ExpensesShaped(L: DebtLedger, u: UserId, exps: seq<Expense>)
    requires Shaped(L)
    ensures Shaped(ExpensesDebt(L, u, exps))
    decreases |exps|
  {
    if exps != [] {
      var e := exps[|exps| - 1];
      var M := ExpensesDebt(L, u, exps[..|exps| - 1]);
      ExpensesShaped(L, u, exps[..|exps| - 1]);
      if e.paidBy != u {
        var split := FindUnpaidSplit(e.splits, u);
        if split.Some? {
          PutShaped(M, e.paidBy, Bump(Get(M, e.paidBy), split.value.amount, e.date));
        }
      } else {
        PaidSplitsShaped(M, u, e.splits, e.date);
      }
    }
  }

  // ---------------------------------------------------------------------
  // The settlement loop
  // ---------------------------------------------------------------------

  /**
   * An existing entry moves by `d` and is deleted when it reaches exactly
   * 0; a missing entry stays missing.
   */
  function Adjust(L: DebtLedger, k: UserId, d: int): DebtLedger {
    if k !in L.vals then L
    else
      var amount := L.vals[k].amount + d;
      if amount == 0 then Delete(L, k) else Put(L, k, DebtEntry(amount, L.vals[k].since))
  }

  /** One personal settlement: paid by `u` lowers the receiver's entry, received by `u` raises the payer's. */
  function SettleDebt(L: DebtLedger, u: UserId, s: Settlement): DebtLedger {
    if s.paidBy == u then Adjust(L, s.receivedBy, -s.amount)
    else if s.receivedBy == u then Adjust(L, s.paidBy, s.amount)
    else L
  }

  function SettleAll(L: DebtLedger, u: UserId, sts: seq<Settlement>): DebtLedger
    decreases |sts|
  {
    if sts == [] then L else SettleDebt(SettleAll(L, u, sts[..|sts| - 1]), u, sts[|sts| - 1])
  }

  /** Whether a settlement is between `u` and `k`, as the settlement loop reads it. */
  predicate SettlesWith(s: Settlement, u: UserId, k: UserId) {
    if s.paidBy == u then s.receivedBy == k else s.receivedBy == u && s.paidBy == k
  }

  /** The change a settlement makes to what `u` owes its counterparty. */
  function Signed(s: Settlement, u: UserId): int {
    if s.paidBy == u then -s.amount else s.amount
  }

  /** One counterparty's entry through the settlement loop. */
  function EntryAfter(o: Option<DebtEntry>, sts: seq<Settlement>, u: UserId, k: UserId): Option<DebtEntry>
    decreases |sts|
  {
    if sts == [] then o
    else
      var s := sts[|sts| - 1];
      var p := EntryAfter(o, sts[..|sts| - 1], u, k);
      if !SettlesWith(s, u, k) || p.None? then p
      else if p.value.amount + Signed(s, u) == 0 then None
      else Some(DebtEntry(p.value.amount + Signed(s, u), p.value.since))
  }

  /** The settlement loop treats each counterparty's entry on its own. */
  lemma {:induction false} SettleAllAt(L: DebtLedger, u: UserId, sts: seq<Settlement>, k: UserId)
    ensures Get(SettleAll(L, u, sts), k) == EntryAfter(Get(L, k), sts, u, k)
    decreases |sts|
  {
    if sts != [] {
      SettleAllAt(L, u, sts[..|sts| - 1], k);
    }
  }

  /**
   * Settlements never create an entry and never move its `since`; an entry
   * left at 0 is one no settlement touched.
   */
  lemma {:induction false} EntryAfterKeeps(o: Option<DebtEntry>, sts: seq<Settlement>, u: UserId, k: UserId)
    ensures var r := EntryAfter(o, sts, u, k);
            && (r.Some? ==> o.Some? && r.value.since == o.value.since)
            && (r.Some? && r.value.amount == 0 ==> r == o)
    decreases |sts|
  {
    if sts != [] {
      EntryAfterKeeps(o, sts[..|sts| - 1], u, k);
    }
  }

  /** Without a settlement between the pair, the entry is what the expenses made it. */
  lemma {:induction false} EntryAfterUnsettled(o: Option<DebtEntry>, sts: seq<Settlement>, u: UserId, k: UserId)
    requires forall s :: s in sts ==> !SettlesWith(s, u, k)
    ensures EntryAfter(o, sts, u, k) == o
    decreases |sts|
  {
    if sts != [] {
      assert forall s :: s in sts[..|sts| - 1] ==> s in sts;
      EntryAfterUnsettled(o, sts[..|sts| - 1], u, k);
    }
  }

  lemma {:induction false} SettleAllShaped(L: DebtLedger, u: UserId, sts: seq<Settlement>)
    requires Shaped(L)
    ensures Shaped(SettleAll(L, u, sts))
    decreases |sts|
  {
    if sts != [] {
      var s := sts[|sts| - 1];
      var M := SettleAll(L, u, sts[..|sts| - 1]);
      SettleAllShaped(L, u, sts[..|sts| - 1]);
      var k := if s.paidBy == u then s.receivedBy else s.paidBy;
      if (s.paidBy == u || s.receivedBy == u) && k in M.vals {
        DeleteShaped(M, k);
        PutShaped(M, k, DebtEntry(M.vals[k].amount + Signed(s, u), M.vals[k].since));
      }
    }
  }

  // ---------------------------------------------------------------------
  // The reported debts
  // ---------------------------------------------------------------------

  datatype Debt = Debt(id: UserId, name: Option<string>, amount: int, since: int)

  datatype Reminder = Reminder(id: UserId, name: Option<string>, email: Option<string>, debts: seq<Debt>)

  /**
   * The loop over the ledger's entries: an entry is reported when its
   * amount is positive and its counterparty's user row exists, in the
   * ledger's order.
   */
  function DebtsOf(keys: seq<UserId>, vals: map<UserId, DebtEntry>, users: seq<User>): (r: seq<Debt>)
    ensures forall d :: d in r ==>
              && d.id in keys && d.id in vals && GetUser(users, d.id).Some?
              && d == Debt(d.id, GetUser(users, d.id).value.name, vals[d.id].amount, vals[d.id].since)
              && d.amount > 0
    ensures forall k :: k in keys && k in vals && vals[k].amount > 0 && GetUser(users, k).Some? ==>
              exists d :: d in r && d.id == k
    ensures Distinct(keys) ==> forall i, j :: 0 <= i < j < |r| ==> r[i].id != r[j].id
    decreases |keys|
  {
    if keys == [] then []
    else
      var front, k := keys[..|keys| - 1], keys[|keys| - 1];
      var F := DebtsOf(front, vals, users);
      assert forall x :: x in keys <==> x in front || x == k;
      assert Distinct(keys) ==> k !in front;
      var counter := GetUser(users, k);
      if k in vals && vals[k].amount > 0 && counter.Some?
      then F + [Debt(k, counter.value.name, vals[k].amount, vals[k].since)]
      else F
  }

  /** The personal expenses (no group). */
  function PersonalExpenses(expenses: seq<Expense>): (r: seq<Expense>)
    ensures forall e :: e in r <==> e in expenses && e.groupId.None?
  {
    Filter(expenses, (e: Expense) => e.groupId.None?)
  }

  /** The personal settlements (no group). */
  function PersonalSettlements(settlements: seq<Settlement>): (r: seq<Settlement>)
    ensures forall s :: s in r <==> s in settlements && s.groupId.None?
  {
    Filter(settlements, (s: Settlement) => s.groupId.None?)
  }

  /** The ledger of `u` after both loops. */
  function LedgerFor(u: UserId, expenses: seq<Expense>, settlements: seq<Settlement>): DebtLedger {
    SettleAll(ExpensesDebt(EmptyLedger, u, PersonalExpenses(expenses)), u, PersonalSettlements(settlements))
  }

  function DebtsFor(u: UserId, users: seq<User>, expenses: seq<Expense>, settlements: seq<Settlement>): seq<Debt> {
    var L := LedgerFor(u, expenses, settlements);
    DebtsOf(L.keys, L.vals, users)
  }

  /** One reminder per user of `owners` with at least one debt, in table order. */
  function RemindersOf(owners: seq<User>, users: seq<User>, expenses: seq<Expense>, settlements: seq<Settlement>)
    : (r: seq<Reminder>)
    ensures forall x :: x in r ==>
              x.debts != [] && exists v :: v in owners && x == Reminder(v.id, v.name, v.email, DebtsFor(v.id, users, expenses, settlements))
    ensures forall v :: v in owners && DebtsFor(v.id, users, expenses, settlements) != [] ==>
              Reminder(v.id, v.name, v.email, DebtsFor(v.id, users, expenses, settlements)) in r
    decreases |owners|
  {
    if owners == [] then []
    else
      var front, v := owners[..|owners| - 1], owners[|owners| - 1];
      var F := RemindersOf(front, users, expenses, settlements);
      assert forall x :: x in owners <==> x in front || x == v;
      var debts := DebtsFor(v.id, users, expenses, settlements);
      if |debts| > 0 then F + [Reminder(v.id, v.name, v.email, debts)] else F
  }

  /**
   * What a reported debt means: the counterparty is another user, `since`
   * is the earliest date of the personal expenses between the two, and the
   * amount is what those expenses add up to, as the settlements between
   * the two then left it.
   */
  lemma ReportedDebt(u: UserId, users: seq<User>, expenses: seq<Expense>, settlements: seq<Settlement>, d: Debt)
    requires d in DebtsFor(u, users, expenses, settlements)
    ensures var exps := PersonalExpenses(expenses);
            && d.id != u && d.amount > 0
            && Earliest(exps, u, d.id).Some? && d.since == Earliest(exps, u, d.id).value
            && Some(DebtEntry(d.amount, d.since))
               == EntryAfter(Some(DebtEntry(OwedTo(exps, u, d.id), Earliest(exps, u, d.id).value)), PersonalSettlements(settlements), u, d.id)
  {
    var exps, sts := PersonalExpenses(expenses), PersonalSettlements(settlements);
    var L0 := ExpensesDebt(EmptyLedger, u, exps);
    ExpensesDebtAt(u, exps, d.id);
    SettleAllAt(L0, u, sts, d.id);
    EntryAfterKeeps(Get(L0, d.id), sts, u, d.id);
    NoSelfEntry(u, exps);
    if d.id == u {
      EntryAfterKeeps(None, sts, u, u);
    }
  }

  /** Without settlements between the two, a positive balance from the expenses is reported as it stands. */
  lemma UnsettledDebtReported(u: UserId, users: seq<User>, expenses: seq<Expense>, settlements: seq<Settlement>, k: UserId)
    requires forall s :: s in PersonalSettlements(settlements) ==> !SettlesWith(s, u, k)
    requires Earliest(PersonalExpenses(expenses), u, k).Some? && OwedTo(PersonalExpenses(expenses), u, k) > 0
    requires GetUser(users, k).Some?
    ensures Debt(k, GetUser(users, k).value.name, OwedTo(PersonalExpenses(expenses), u, k),
                 Earliest(PersonalExpenses(expenses), u, k).value) in DebtsFor(u, users, expenses, settlements)
  {
    var exps, sts := PersonalExpenses(expenses), PersonalSettlements(settlements);
    var L0 := ExpensesDebt(EmptyLedger, u, exps);
    ExpensesDebtAt(u, exps, k);
    SettleAllAt(L0, u, sts, k);
    EntryAfterUnsettled(Get(L0, k), sts, u, k);
    ExpensesShaped(EmptyLedger, u, exps);
    SettleAllShaped(L0, u, sts);
    var L := LedgerFor(u, expenses, settlements);
    assert k in L.vals && k in L.keys;
  }

  /** `getUserWithOutstandingDebts` */
  method GetUserWithOutstandingDebts(users: seq<User>, expenses: seq<Expense>, settlements: seq<Settlement>)
    returns (result: seq<Reminder>)
    ensures result == RemindersOf(users, users, expenses, settlements)
  {
    var exps := PersonalExpenses(expenses);
    var sts := PersonalSettlements(settlements);
    result := [];
    var i := 0;
    while i < |users|
      invariant 0 <= i <= |users|
      invariant result == RemindersOf(users[..i], users, expenses, settlements)
    {
      var user := users[i];
      assert users[..i + 1][..i] == users[..i];
      var ledger := BuildLedger(user.id, exps);
      ledger := SettleLedger(ledger, user.id, sts);
      var debts := CollectDebts(ledger, users);
      if |debts| > 0 {
        result := result + [Reminder(user.id, user.name, user.email, debts)];
      }
      i := i + 1;
    }
    assert users[..i] == users;
  }

  /** The `for (const expense of expenses)` loop for one user. */
  method BuildLedger(u: UserId, exps: seq<Expense>) returns (ledger: DebtLedger)
    ensures ledger == ExpensesDebt(EmptyLedger, u, exps)
  {
    ledger := EmptyLedger;
    var i := 0;
    while i < |exps|
      invariant 0 <= i <= |exps|
      invariant ledger == ExpensesDebt(EmptyLedger, u, exps[..i])
    {
      var expense := exps[i];
      assert exps[..i + 1][..i] == exps[..i];
      if expense.paidBy != u {
        var split := FindUnpaidSplit(expense.splits, u);
        if split.Some? {
          ledger := Charge(ledger, expense.paidBy, split.value.amount, expense.date);
        }
      } else {
        ledger := SubtractSplits(ledger, u, expense.splits, expense.date);
      }
      i := i + 1;
    }
    assert exps[..i] == exps;
  }

  /** The `for (const s of expense.splits)` loop of an expense `u` paid. */
  method SubtractSplits(L: DebtLedger, u: UserId, splits: seq<Split>, date: int) returns (ledger: DebtLedger)
    ensures ledger == PaidSplits(L, u, splits, date)
  {
    ledger := L;
    var j := 0;
    while j < |splits|
      invariant 0 <= j <= |splits|
      invariant ledger == PaidSplits(L, u, splits[..j], date)
    {
      var s := splits[j];
      assert splits[..j + 1][..j] == splits[..j];
      if !(s.userId == u || s.paid) {
        ledger := Charge(ledger, s.userId, -s.amount, date);
      }
      j := j + 1;
    }
    assert splits[..j] == splits;
  }

  /** The `for (const s of settlements)` loop for one user. */
  method SettleLedger(L: DebtLedger, u: UserId, sts: seq<Settlement>) returns (ledger: DebtLedger)
    ensures ledger == SettleAll(L, u, sts)
  {
    ledger := L;
    var i := 0;
    while i < |sts|
      invariant 0 <= i <= |sts|
      invariant ledger == SettleAll(L, u, sts[..i])
    {
      var s := sts[i];
      assert sts[..i + 1][..i] == sts[..i];
      if s.paidBy == u {
        ledger := Adjust(ledger, s.receivedBy, -s.amount);
      } else if s.receivedBy == u {
        ledger := Adjust(ledger, s.paidBy, s.amount);
      }
      i := i + 1;
    }
    assert sts[..i] == sts;
  }

  /** The `for (const [counterId, …] of ledger)` loop. */
  method CollectDebts(L: DebtLedger, users: seq<User>) returns (debts: seq<Debt>)
    ensures debts == DebtsOf(L.keys, L.vals, users)
  {
    debts := [];
    var i := 0;
    while i < |L.keys|
      invariant 0 <= i <= |L.keys|
      invariant debts == DebtsOf(L.keys[..i], L.vals, users)
    {
      var counterId := L.keys[i];
      assert L.keys[..i + 1][..i] == L.keys[..i];
      if counterId in L.vals && L.vals[counterId].amount > 0 {
        var counter := GetUser(users, counterId);
        if counter.Some? {
          debts := debts + [Debt(counterId, counter.value.name, L.vals[counterId].amount, L.vals[counterId].since)];
        }
      }
      i := i + 1;
    }
    assert L.keys[..i] == L.keys;
  }

  // ---------------------------------------------------------------------
  // getUserWithExpenses and getUserMonthlyExpenses
  // ---------------------------------------------------------------------

  datatype ActiveUser = ActiveUser(id: UserId, name: Option<string>, email: Option<string>)

  /** The users with a recent expense they paid or hold a split in, in table order. */
  function ActiveUsers(users: seq<User>, expenses: seq<Expense>, monthStart: int): (r: seq<ActiveUser>)
    ensures forall x :: x in r <==> exists v :: v in users && x == ActiveUser(v.id, v.name, v.email)
                                              && exists e :: e in expenses && e.date >= monthStart && Involves(e, v.id)
    decreases |users|
  {
    if users == [] then []
    else
      var front, v := users[..|users| - 1], users[|users| - 1];
      var F := ActiveUsers(front, expenses, monthStart);
      assert forall x :: x in users <==> x in front || x == v;
      if exists e :: e in expenses && e.date >= monthStart && Involves(e, v.id)
      then F + [ActiveUser(v.id, v.name, v.email)]
      else F
  }

  /** `getUserWithExpenses`, with the start of the last month as an input. */
  method GetUserWithExpenses(users: seq<User>, expenses: seq<Expense>, monthStart: int) returns (result: seq<ActiveUser>)
    ensures result == ActiveUsers(users, expenses, monthStart)
  {
    result := [];
    var i := 0;
    while i < |users|
      invariant 0 <= i <= |users|
      invariant result == ActiveUsers(users[..i], expenses, monthStart)
    {
      var user := users[i];
      assert users[..i + 1][..i] == users[..i];
      var paidExpenses := Filter(DatedFrom(expenses, monthStart), (e: Expense) => e.paidBy == user.id);
      var splitExpenses := Filter(DatedFrom(expenses, monthStart), (e: Expense) => HasSplit(e.splits, user.id));
      var userExpenses := Dedup(paidExpenses + splitExpenses);
      if |userExpenses| > 0 {
        var e := userExpenses[0];
        assert e in paidExpenses + splitExpenses;
        result := result + [ActiveUser(user.id, user.name, user.email)];
      }
      i := i + 1;
    }
    assert users[..i] == users;
  }

  datatype ExpenseRow = ExpenseRow(description: string, category: string, date: int, amount: int,
                                   isPayer: bool, isGroupExpense: bool)

  /** The recent expenses `u` paid or holds a split in. */
  function InvolvedRecent(expenses: seq<Expense>, u: UserId, monthStart: int): (r: seq<Expense>)
    ensures forall e :: e in r <==> e in expenses && e.date >= monthStart && Involves(e, u)
  {
    Filter(DatedFrom(expenses, monthStart), (e: Expense) => Involves(e, u))
  }

  /** `getUserMonthlyExpenses`: one row per recent expense the user is involved in, in table order. */
  function UserMonthlyExpenses(u: UserId, expenses: seq<Expense>, monthStart: int): (r: seq<ExpenseRow>)
    ensures var exps := InvolvedRecent(expenses, u, monthStart);
            |r| == |exps|
            && forall i :: 0 <= i < |r| ==>
                 r[i] == ExpenseRow(exps[i].description, exps[i].category, exps[i].date, exps[i].amount,
                                    exps[i].paidBy == u, exps[i].groupId.Some?)
  {
    var exps := InvolvedRecent(expenses, u, monthStart);
    seq(|exps|, i requires 0 <= i < |exps| =>
      ExpenseRow(exps[i].description, exps[i].category, exps[i].date, exps[i].amount, exps[i].paidBy == u, exps[i].groupId.Some?))
  }

  lemma NonEmptyIff<T>(s: seq<T>)
    ensures s != [] <==> exists x :: x in s
  {
    if s != [] {
      assert s[0] in s;
    }
  }

  /** A user is reported active exactly when its monthly expense list is not empty. */
  lemma ActiveIffMonthlyRows(users: seq<User>, expenses: seq<Expense>, monthStart: int, v: User)
    requires v in users
    ensures ActiveUser(v.id, v.name, v.email) in ActiveUsers(users, expenses, monthStart)
            <==> UserMonthlyExpenses(v.id, expenses, monthStart) != []
  {
    var exps := InvolvedRecent(expenses, v.id, monthStart);
    if exists e :: e in expenses && e.date >= monthStart && Involves(e, v.id) {
      var e :| e in expenses && e.date >= monthStart && Involves(e, v.id);
      assert e in exps;
      assert ActiveUser(v.id, v.name, v.email) in ActiveUsers(users, expenses, monthStart);
    }
    NonEmptyIff(exps);
  }
}
