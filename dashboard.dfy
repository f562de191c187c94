/**
 * The dashboard's server functions: the caller's personal balances with a
 * per-counterparty breakdown (`getUserBalances`), the spend of the current
 * year (`getTotalSpend`) and its split into the twelve months
 * (`getMonthlySpending`), and the caller's signed balance in each of its
 * groups (`getUserGroups`).
 */
module Dashboard {

  import opened Records
  import Groups
  import GroupLedger
  import Settlements

  // ---------------------------------------------------------------------
  // getUserBalances: the per-counterparty buckets
  // ---------------------------------------------------------------------

  /** `balanceByUser`: its keys in insertion order, and its entries. */
  datatype Buckets = Buckets(keys: seq<UserId>, vals: map<UserId, Tally>)

  /** The keys are the entries' users, each once. */
  ghost predicate WellFormed(B: Buckets) {
    Distinct(B.keys) && forall u :: u in B.vals <==> u in B.keys
  }

  /** An entry, `{ owed: 0, owing: 0 }` where there is none. */
  function At(vals: map<UserId, Tally>, u: UserId): Tally {
    if u in vals then vals[u] else Tally(0, 0)
  }

  /** `balanceByUser[u] = t` */
  function SetEntry(vals: map<UserId, Tally>, u: UserId, t: Tally): map<UserId, Tally> {
    vals[u := t]
  }

  /** `balanceByUser[u] ??= { owed: 0, owing: 0 }`: a missing key is appended with an empty entry. */
  function Touch(B: Buckets, u: UserId): (r: Buckets)
    ensures u in r.vals
  {
    if u in B.vals then B else Buckets(B.keys + [u], SetEntry(B.vals, u, Tally(0, 0)))
  }

  /** `(balanceByUser[u] ??= …)`, then `owed += dOwed` and `owing += dOwing` on that entry. */
  function Adjust(B: Buckets, u: UserId, dOwed: int, dOwing: int): Buckets {
    var T := Touch(B, u);
    Buckets(T.keys, SetEntry(T.vals, u, Tally(T.vals[u].owed + dOwed, T.vals[u].owing + dOwing)))
  }

  /** `(balanceByUser[u] ??= …).owed += d` */
  function AddOwed(B: Buckets, u: UserId, d: int): Buckets {
    Adjust(B, u, d, 0)
  }

  /** `(balanceByUser[u] ??= …).owing += d` */
  function AddOwing(B: Buckets, u: UserId, d: int): Buckets {
    Adjust(B, u, 0, d)
  }

  /** The sum of the `owed` fields of the entries of `keys`. */
  function OwedSum(vals: map<UserId, Tally>, keys: seq<UserId>): int
    decreases |keys|
  {
    if keys == [] then 0 else OwedSum(vals, keys[..|keys| - 1]) + At(vals, keys[|keys| - 1]).owed
  }

  /** The sum of the `owing` fields of the entries of `keys`. */
  function OwingSum(vals: map<UserId, Tally>, keys: seq<UserId>): int
    decreases |keys|
  {
    if keys == [] then 0 else OwingSum(vals, keys[..|keys| - 1]) + At(vals, keys[|keys| - 1]).owing
  }

  /** Replacing one entry changes the sums over distinct keys by the entry's change, if the key is among them. */
  lemma {:induction false} SumsUpdate(vals: map<UserId, Tally>, keys: seq<UserId>, u: UserId, t: Tally)
    requires Distinct(keys)
    ensures OwedSum(SetEntry(vals, u, t), keys) == OwedSum(vals, keys) + (if u in keys then t.owed - At(vals, u).owed else 0)
    ensures OwingSum(SetEntry(vals, u, t), keys) == OwingSum(vals, keys) + (if u in keys then t.owing - At(vals, u).owing else 0)
    decreases |keys|
  {
    if keys != [] {
      var front := keys[..|keys| - 1];
      DistinctFront(keys);
      SumsUpdate(vals, front, u, t);
      assert forall x :: x in keys <==> x in front || x == keys[|keys| - 1];
    }
  }

  /** Replacing an existing entry keeps the keys well formed and changes the sums by the entry's change. */
  lemma ReplaceSums(B: Buckets, u: UserId, t: Tally)
    requires WellFormed(B) && u in B.vals
    ensures WellFormed(Buckets(B.keys, SetEntry(B.vals, u, t)))
    ensures OwedSum(SetEntry(B.vals, u, t), B.keys) == OwedSum(B.vals, B.keys) + t.owed - B.vals[u].owed
    ensures OwingSum(SetEntry(B.vals, u, t), B.keys) == OwingSum(B.vals, B.keys) + t.owing - B.vals[u].owing
  {
    SumsUpdate(B.vals, B.keys, u, t);
  }

  /** Appending a new entry keeps the keys well formed and adds the entry to the sums. */
  lemma AppendSums(B: Buckets, u: UserId, t: Tally)
    requires WellFormed(B) && u !in B.vals
    ensures WellFormed(Buckets(B.keys + [u], SetEntry(B.vals, u, t)))
    ensures OwedSum(SetEntry(B.vals, u, t), B.keys + [u]) == OwedSum(B.vals, B.keys) + t.owed
    ensures OwingSum(SetEntry(B.vals, u, t), B.keys + [u]) == OwingSum(B.vals, B.keys) + t.owing
  {
    var keys := B.keys + [u];
    assert u !in B.keys;
    SumsUpdate(B.vals, B.keys, u, t);
    assert keys[..|keys| - 1] == B.keys;
  }

  /** Adjusting an entry adds the adjustments to the sums and keeps the keys well formed. */
  lemma AdjustSums(B: Buckets, u: UserId, dOwed: int, dOwing: int)
    requires WellFormed(B)
    ensures var R := Adjust(B, u, dOwed, dOwing);
            && WellFormed(R)
            && OwedSum(R.vals, R.keys) == OwedSum(B.vals, B.keys) + dOwed
            && OwingSum(R.vals, R.keys) == OwingSum(B.vals, B.keys) + dOwing
  {
    if u in B.vals {
      AdjustPresent(B, u, dOwed, dOwing);
    } else {
      AdjustAbsent(B, u, dOwed, dOwing);
    }
  }

  lemma AdjustPresent(B: Buckets, u: UserId, dOwed: int, dOwing: int)
    requires WellFormed(B) && u in B.vals
    ensures Adjust(B, u, dOwed, dOwing) == Buckets(B.keys, SetEntry(B.vals, u, Tally(B.vals[u].owed + dOwed, B.vals[u].owing + dOwing)))
    ensures var R := Adjust(B, u, dOwed, dOwing);
            && WellFormed(R)
            && OwedSum(R.vals, R.keys) == OwedSum(B.vals, B.keys) + dOwed
            && OwingSum(R.vals, R.keys) == OwingSum(B.vals, B.keys) + dOwing
  {
    ReplaceSums(B, u, Tally(B.vals[u].owed + dOwed, B.vals[u].owing + dOwing));
  }

  lemma AdjustAbsent(B: Buckets, u: UserId, dOwed: int, dOwing: int)
    requires WellFormed(B) && u !in B.vals
    ensures var R := Adjust(B, u, dOwed, dOwing);
            && WellFormed(R)
            && OwedSum(R.vals, R.keys) == OwedSum(B.vals, B.keys) + dOwed
            && OwingSum(R.vals, R.keys) == OwingSum(B.vals, B.keys) + dOwing
  {
    AdjustAppends(B, u, dOwed, dOwing);
    AppendSums(B, u, Tally(dOwed, dOwing));
  }

  /** For a missing key, `Adjust` appends the key with the adjustments as its entry. */
  lemma AdjustAppends(B: Buckets, u: UserId, dOwed: int, dOwing: int)
    requires u !in B.vals
    ensures Adjust(B, u, dOwed, dOwing) == Buckets(B.keys + [u], SetEntry(B.vals, u, Tally(dOwed, dOwing)))
  {
    SetTwice(B.vals, u, Tally(0, 0), Tally(dOwed, dOwing));
  }

  lemma SetTwice(vals: map<UserId, Tally>, u: UserId, t0: Tally, t: Tally)
    ensures SetEntry(SetEntry(vals, u, t0), u, t) == SetEntry(vals, u, t)
  {
  }

  // ---------------------------------------------------------------------
  // getUserBalances: the running totals
  // ---------------------------------------------------------------------

  /** `youOwe`, `youAreOwed` and `balanceByUser`. */
  datatype BalanceState = BalanceState(youOwe: int, youAreOwed: int, buckets: Buckets)

  const Start := BalanceState(0, 0, Buckets([], map[]))

  /** A change to the running totals, made to the entry of `u` as well. */
  function Move(st: BalanceState, u: UserId, dOwed: int, dOwing: int): BalanceState {
    BalanceState(st.youOwe + dOwing, st.youAreOwed + dOwed, Adjust(st.buckets, u, dOwed, dOwing))
  }

  /**
   * The expense filter as written: `!groupId && paidBy === me || splits.some(…)`
   * groups as `(!groupId && paidBy === me) || splits.some(…)`, so a group
   * expense in which the caller holds a split passes too.
   */
  predicate BalanceExpenseFilter(me: UserId, e: Expense) {
    (e.groupId.None? && e.paidBy == me) || HasSplit(e.splits, me)
  }

  /** The settlement filter as written: `(!groupId && paidBy === me) || receivedBy === me`. */
  predicate BalanceSettlementFilter(me: UserId, s: Settlement) {
    (s.groupId.None? && s.paidBy == me) || s.receivedBy == me
  }

  function BalanceExpenses(expenses: seq<Expense>, me: UserId): (r: seq<Expense>)
    ensures forall e :: e in r <==> e in expenses && BalanceExpenseFilter(me, e)
  {
    Filter(expenses, (e: Expense) => BalanceExpenseFilter(me, e))
  }

  function BalanceSettlements(settlements: seq<Settlement>, me: UserId): (r: seq<Settlement>)
    ensures forall s :: s in r <==> s in settlements && BalanceSettlementFilter(me, s)
  {
    Filter(settlements, (s: Settlement) => BalanceSettlementFilter(me, s))
  }

  /** The splits of an expense the caller paid: every other unpaid split is owed to the caller. */
  function PayerSplits(st: BalanceState, me: UserId, splits: seq<Split>): BalanceState
    decreases |splits|
  {
    if splits == [] then st
    else
      var s := splits[|splits| - 1];
      var M := PayerSplits(st, me, splits[..|splits| - 1]);
      if s.userId == me || s.paid then M
      else Move(M, s.userId, s.amount, 0)
  }

  /**
   * One expense: the caller's own expense goes through its splits; on
   * another's expense, the caller's first split, when unpaid, is owed to
   * the payer.
   */
  function ExpenseStep(st: BalanceState, me: UserId, e: Expense): BalanceState {
    if e.paidBy == me then PayerSplits(st, me, e.splits)
    else
      var mine := FindSplit(e.splits, me);
      if mine.Some? && !mine.value.paid
      then Move(st, e.paidBy, 0, mine.value.amount)
      else st
  }

  function ExpensesStep(st: BalanceState, me: UserId, exps: seq<Expense>): BalanceState
    decreases |exps|
  {
    if exps == [] then st else ExpenseStep(ExpensesStep(st, me, exps[..|exps| - 1]), me, exps[|exps| - 1])
  }

  /**
   * One settlement, without clamping: one the caller paid lowers what the
   * caller owes; one the caller received lowers what the caller is owed,
   * in the entry keyed by the caller's own id.
   */
  function SettlementStep(st: BalanceState, me: UserId, s: Settlement): BalanceState {
    if s.paidBy == me then Move(st, s.receivedBy, 0, -s.amount)
    else if s.receivedBy == me then Move(st, s.receivedBy, -s.amount, 0)
    else st
  }

  function SettlementsStep(st: BalanceState, me: UserId, sts: seq<Settlement>): BalanceState
    decreases |sts|
  {
    if sts == [] then st else SettlementStep(SettlementsStep(st, me, sts[..|sts| - 1]), me, sts[|sts| - 1])
  }

  /** The running totals are the sums of the entries: every change to a total goes to some entry too. */
  ghost predicate Consistent(st: BalanceState) {
    && WellFormed(st.buckets)
    && st.youAreOwed == OwedSum(st.buckets.vals, st.buckets.keys)
    && st.youOwe == OwingSum(st.buckets.vals, st.buckets.keys)
  }

  lemma {:induction false} PayerSplitsConsistent(st: BalanceState, me: UserId, splits: seq<Split>)
    requires Consistent(st)
    ensures Consistent(PayerSplits(st, me, splits))
    decreases |splits|
  {
    if splits != [] {
      var s := splits[|splits| - 1];
      var M := PayerSplits(st, me, splits[..|splits| - 1]);
      PayerSplitsConsistent(st, me, splits[..|splits| - 1]);
      if !(s.userId == me || s.paid) {
        MoveConsistent(M, s.userId, s.amount, 0);
      }
    }
  }

  lemma {:induction false} ExpensesConsistent(st: BalanceState, me: UserId, exps: seq<Expense>)
    requires Consistent(st)
    ensures Consistent(ExpensesStep(st, me, exps))
    decreases |exps|
  {
    if exps != [] {
      var e := exps[|exps| - 1];
      var M := ExpensesStep(st, me, exps[..|exps| - 1]);
      ExpensesConsistent(st, me, exps[..|exps| - 1]);
      if e.paidBy == me {
        PayerSplitsConsistent(M, me, e.splits);
      } else {
        var mine := FindSplit(e.splits, me);
        if mine.Some? && !mine.value.paid {
          MoveConsistent(M, e.paidBy, 0, mine.value.amount);
        }
      }
    }
  }

  /** A move keeps the running totals consistent with the entries. */
  lemma MoveConsistent(st: BalanceState, u: UserId, dOwed: int, dOwing: int)
    requires Consistent(st)
    ensures Consistent(Move(st, u, dOwed, dOwing))
  {
    AdjustSums(st.buckets, u, dOwed, dOwing);
  }

  lemma PaidConsistent(st: BalanceState, me: UserId, s: Settlement)
    requires Consistent(st) && s.paidBy == me
    ensures Consistent(SettlementStep(st, me, s))
  {
    MoveConsistent(st, s.receivedBy, 0, -s.amount);
  }

  lemma ReceivedConsistent(st: BalanceState, me: UserId, s: Settlement)
    requires Consistent(st) && s.paidBy != me && s.receivedBy == me
    ensures Consistent(SettlementStep(st, me, s))
  {
    MoveConsistent(st, s.receivedBy, -s.amount, 0);
  }

  lemma {:induction false} SettlementsConsistent(st: BalanceState, me: UserId, sts: seq<Settlement>)
    requires Consistent(st)
    ensures Consistent(SettlementsStep(st, me, sts))
    decreases |sts|
  {
    if sts != [] {
      var s := sts[|sts| - 1];
      var M := SettlementsStep(st, me, sts[..|sts| - 1]);
      SettlementsConsistent(st, me, sts[..|sts| - 1]);
      if s.paidBy == me {
        PaidConsistent(M, me, s);
      } else if s.receivedBy == me {
        ReceivedConsistent(M, me, s);
      }
    }
  }

  // ---------------------------------------------------------------------
  // getUserBalances: the two lists
  // ---------------------------------------------------------------------

  datatype UserBalance = UserBalance(userId: UserId, name: Option<string>, imageUrl: Option<string>, amount: int)

  datatype OweDetails = OweDetails(youOwe: seq<UserBalance>, youAreOwedBy: seq<UserBalance>)

  datatype UserBalances = UserBalances(youOwe: int, youAreOwed: int, totalBalance: int, oweDetails: OweDetails)

  /** `owed - owing` of an entry. */
  function NetOf(vals: map<UserId, Tally>, u: UserId): int {
    At(vals, u).owed - At(vals, u).owing
  }

  function Abs(x: int): int {
    if x < 0 then -x else x
  }

  /** `{ userId, name, imageUrl, amount }` for a counterpart, looked up by id. */
  function Listed(u: UserId, amount: int, users: seq<User>): UserBalance {
    var c := GetUser(users, u);
    UserBalance(u, if c.Some? then c.value.name else None, if c.Some? then c.value.imageUrl else None, amount)
  }

  /**
   * The loop over `Object.entries(balanceByUser)`: the caller's own entry
   * and every entry with net 0 are skipped; every other entry is listed
   * once, with amount |net|, under "owes you" when its net is positive and
   * under "you owe" otherwise.
   */
  function OweLists(me: UserId, keys: seq<UserId>, vals: map<UserId, Tally>, users: seq<User>): (r: OweDetails)
    ensures forall b :: b in r.youAreOwedBy ==>
              b.userId in keys && b.userId != me && NetOf(vals, b.userId) > 0 && b.amount == NetOf(vals, b.userId)
    ensures forall b :: b in r.youOwe ==>
              b.userId in keys && b.userId != me && NetOf(vals, b.userId) < 0 && b.amount == -NetOf(vals, b.userId)
    ensures forall u :: u in keys && u != me && NetOf(vals, u) > 0 ==> exists b :: b in r.youAreOwedBy && b.userId == u
    ensures forall u :: u in keys && u != me && NetOf(vals, u) < 0 ==> exists b :: b in r.youOwe && b.userId == u
    ensures Distinct(keys) ==> && (forall i, j :: 0 <= i < j < |r.youOwe| ==> r.youOwe[i].userId != r.youOwe[j].userId)
                               && (forall i, j :: 0 <= i < j < |r.youAreOwedBy| ==> r.youAreOwedBy[i].userId != r.youAreOwedBy[j].userId)
  {
    OweDetails(Listing(me, keys, vals, users, false), Listing(me, keys, vals, users, true))
  }

  /**
   * One of the two lists the loop over the entries builds: the entries
   * with a positive net (`owed`) or a negative one (not `owed`), in key
   * order, without the caller's own.
   */
  function Listing(me: UserId, keys: seq<UserId>, vals: map<UserId, Tally>, users: seq<User>, owed: bool): (r: seq<UserBalance>)
    ensures forall b :: b in r ==>
              b.userId in keys && b.userId != me && b.amount == Abs(NetOf(vals, b.userId))
              && (if owed then NetOf(vals, b.userId) > 0 else NetOf(vals, b.userId) < 0)
    ensures forall u :: u in keys && u != me && (if owed then NetOf(vals, u) > 0 else NetOf(vals, u) < 0) ==>
              exists b :: b in r && b.userId == u
    ensures Distinct(keys) ==> forall i, j :: 0 <= i < j < |r| ==> r[i].userId != r[j].userId
    decreases |keys|
  {
    if keys == [] then []
    else
      var front := keys[..|keys| - 1];
      var u := keys[|keys| - 1];
      var F := Listing(me, front, vals, users, owed);
      assert forall x :: x in keys <==> x in front || x == u;
      var net := NetOf(vals, u);
      if u == me || net == 0 || (net > 0) != owed then F
      else
        assert Distinct(keys) ==> u !in front;
        F + [Listed(u, Abs(net), users)]
  }

  /** What `getUserBalances` computes from the tables. */
  function UserBalancesOf(me: UserId, expenses: seq<Expense>, settlements: seq<Settlement>, users: seq<User>): UserBalances {
    var st := SettlementsStep(ExpensesStep(Start, me, BalanceExpenses(expenses, me)), me, BalanceSettlements(settlements, me));
    UserBalances(st.youOwe, st.youAreOwed, st.youAreOwed - st.youOwe,
                 OweLists(me, st.buckets.keys, st.buckets.vals, users))
  }

  /**
   * The caller's totals are the sums over all entries, the caller's own
   * entry included; the lists leave that entry out.
   */
  lemma UserBalancesConsistent(me: UserId, expenses: seq<Expense>, settlements: seq<Settlement>)
    ensures Consistent(SettlementsStep(ExpensesStep(Start, me, BalanceExpenses(expenses, me)), me, BalanceSettlements(settlements, me)))
  {
    ExpensesConsistent(Start, me, BalanceExpenses(expenses, me));
    SettlementsConsistent(ExpensesStep(Start, me, BalanceExpenses(expenses, me)), me, BalanceSettlements(settlements, me));
  }

  /** `getUserBalances` */
  method GetUserBalances(me: UserId, expenses: seq<Expense>, settlements: seq<Settlement>, users: seq<User>)
    returns (r: UserBalances)
    ensures r == UserBalancesOf(me, expenses, settlements, users)
    ensures r.totalBalance == r.youAreOwed - r.youOwe
  {
    var exps := BalanceExpenses(expenses, me);
    var st := ApplyExpenses(me, exps);
    var sts := BalanceSettlements(settlements, me);
    st := ApplySettlements(st, me, sts);
    var lists := BuildLists(me, st.buckets, users);
    r := UserBalances(st.youOwe, st.youAreOwed, st.youAreOwed - st.youOwe, lists);
  }

  /** The `for (const e of expenses)` loop. */
  method ApplyExpenses(me: UserId, exps: seq<Expense>) returns (st: BalanceState)
    ensures st == ExpensesStep(Start, me, exps)
  {
    var youOwe, youAreOwed := 0, 0;
    var buckets := Buckets([], map[]);
    var i := 0;
    while i < |exps|
      invariant 0 <= i <= |exps|
      invariant BalanceState(youOwe, youAreOwed, buckets) == ExpensesStep(Start, me, exps[..i])
    {
      var e := exps[i];
      assert exps[..i + 1][..i] == exps[..i];
      var isPayer := e.paidBy == me;
      var mySplit := FindSplit(e.splits, me);
      if isPayer {
        var s1 := ApplyPayerSplits(BalanceState(youOwe, youAreOwed, buckets), me, e.splits);
        youOwe, youAreOwed, buckets := s1.youOwe, s1.youAreOwed, s1.buckets;
      } else if mySplit.Some? && !mySplit.value.paid {
        youOwe := youOwe + mySplit.value.amount;
        buckets := AddOwing(buckets, e.paidBy, mySplit.value.amount);
      }
      i := i + 1;
    }
    assert exps[..i] == exps;
    st := BalanceState(youOwe, youAreOwed, buckets);
  }

  /** The `for (const s of e.splits)` loop of an expense the caller paid. */
  method ApplyPayerSplits(st0: BalanceState, me: UserId, splits: seq<Split>) returns (st: BalanceState)
    ensures st == PayerSplits(st0, me, splits)
  {
    st := st0;
    var j := 0;
    while j < |splits|
      invariant 0 <= j <= |splits|
      invariant st == PayerSplits(st0, me, splits[..j])
    {
      var s := splits[j];
      assert splits[..j + 1][..j] == splits[..j];
      if !(s.userId == me || s.paid) {
        st := BalanceState(st.youOwe, st.youAreOwed + s.amount, AddOwed(st.buckets, s.userId, s.amount));
      }
      j := j + 1;
    }
    assert splits[..j] == splits;
  }

  /** The `for (const s of settlements)` loop. */
  method ApplySettlements(st0: BalanceState, me: UserId, sts: seq<Settlement>) returns (st: BalanceState)
    ensures st == SettlementsStep(st0, me, sts)
    ensures Consistent(st0) ==> Consistent(st)
  {
    st := st0;
    var i := 0;
    while i < |sts|
      invariant 0 <= i <= |sts|
      invariant st == SettlementsStep(st0, me, sts[..i])
    {
      var s := sts[i];
      assert sts[..i + 1][..i] == sts[..i];
      if s.paidBy == me {
        st := BalanceState(st.youOwe - s.amount, st.youAreOwed, AddOwing(st.buckets, s.receivedBy, -s.amount));
      } else if s.receivedBy == me {
        st := BalanceState(st.youOwe, st.youAreOwed - s.amount, AddOwed(st.buckets, s.receivedBy, -s.amount));
      }
      i := i + 1;
    }
    assert sts[..i] == sts;
    if Consistent(st0) {
      SettlementsConsistent(st0, me, sts);
    }
  }

  /** The `for (const [uid, …] of Object.entries(balanceByUser))` loop. */
  method BuildLists(me: UserId, B: Buckets, users: seq<User>) returns (r: OweDetails)
    ensures r == OweLists(me, B.keys, B.vals, users)
  {
    var youOweList: seq<UserBalance> := [];
    var youAreOwedByList: seq<UserBalance> := [];
    var i := 0;
    while i < |B.keys|
      invariant 0 <= i <= |B.keys|
      invariant OweDetails(youOweList, youAreOwedByList) == OweLists(me, B.keys[..i], B.vals, users)
    {
      var uid := B.keys[i];
      assert B.keys[..i + 1][..i] == B.keys[..i];
      var t := At(B.vals, uid);
      var net := t.owed - t.owing;
      if uid != me && net != 0 {
        var base := Listed(uid, Abs(net), users);
        if net > 0 {
          youAreOwedByList := youAreOwedByList + [base];
        } else {
          youOweList := youOweList + [base];
        }
      }
      i := i + 1;
    }
    assert B.keys[..i] == B.keys;
    r := OweDetails(youOweList, youAreOwedByList);
  }

  /** The caller (1) paid 5 to user 2 outside groups and has no expenses: "you owe" reads -5. */
  lemma SettlementIsNotClamped()
    ensures var r := UserBalancesOf(1, [], [Settlement(5, None, 0, 1, 2, None, None, 1)], []);
            r.youOwe == -5 && r.totalBalance == 5
  {
    var s := Settlement(5, None, 0, 1, 2, None, None, 1);
    assert BalanceExpenses([], 1) == [];
    assert BalanceSettlements([s], 1) == [s] by {
      assert [s][..0] == [];
    }
    assert [s][..0] == [];
  }

  /**
   * User 2 paid 10 in group 7 and the caller (1) holds an unpaid split of
   * 4: the group expense passes the personal filter and "you owe" reads 4.
   */
  lemma GroupSplitCounted()
    ensures var e := Expense("taxi", 10, "transport", 0, 2, Some(7), [Split(1, 4, false), Split(2, 6, false)], 2);
            UserBalancesOf(1, [e], [], []).youOwe == 4
  {
    var e := Expense("taxi", 10, "transport", 0, 2, Some(7), [Split(1, 4, false), Split(2, 6, false)], 2);
    assert HasSplit(e.splits, 1) by {
      assert e.splits[0].userId == 1;
    }
    assert BalanceExpenses([e], 1) == [e] by {
      assert [e][..0] == [];
    }
    assert FindSplit(e.splits, 1) == Some(Split(1, 4, false));
    assert [e][..0] == [];
    assert BalanceSettlements([], 1) == [];
  }

  /**
   * User 2 paid the caller (1) 4 outside groups: "you are owed" reads -4,
   * the change lands in the entry keyed by the caller, and neither list
   * shows it.
   */
  lemma ReceivedSettlementKeyedByCaller()
    ensures var r := UserBalancesOf(1, [], [Settlement(4, None, 0, 2, 1, None, None, 2)], []);
            r.youAreOwed == -4 && r.oweDetails == OweDetails([], [])
  {
    var s := Settlement(4, None, 0, 2, 1, None, None, 2);
    assert BalanceExpenses([], 1) == [];
    assert BalanceSettlements([s], 1) == [s] by {
      assert [s][..0] == [];
    }
    assert [s][..0] == [];
    var st := SettlementStep(Start, 1, s);
    assert st.buckets.keys == [1];
    assert [1][..0] == [];
  }

  // ---------------------------------------------------------------------
  // getTotalSpend and getMonthlySpending
  // ---------------------------------------------------------------------

  /** The expenses from the start of the year (`by_date` index) that involve the caller. */
  function SpendExpenses(expenses: seq<Expense>, me: UserId, startOfYear: int): (r: seq<Expense>)
    ensures forall e :: e in r <==> e in expenses && e.date >= startOfYear && Involves(e, me)
  {
    Filter(expenses, (e: Expense) => e.date >= startOfYear && Involves(e, me))
  }

  /** The caller's share of an expense: the amount of its first split, 0 when it has none. */
  function MyShare(e: Expense, me: UserId): int {
    AmountOf(FindSplit(e.splits, me))
  }

  /** The caller's shares of `exps`, added up. */
  function Spend(exps: seq<Expense>, me: UserId): int
    decreases |exps|
  {
    if exps == [] then 0 else Spend(exps[..|exps| - 1], me) + MyShare(exps[|exps| - 1], me)
  }

  /** `getTotalSpend`, with the start of the current year as an input. */
  method TotalSpend(me: UserId, expenses: seq<Expense>, startOfYear: int) returns (totalSpent: int)
    ensures totalSpent == Spend(SpendExpenses(expenses, me, startOfYear), me)
  {
    var exps := SpendExpenses(expenses, me, startOfYear);
    totalSpent := 0;
    var i := 0;
    while i < |exps|
      invariant 0 <= i <= |exps|
      invariant totalSpent == Spend(exps[..i], me)
    {
      assert exps[..i + 1][..i] == exps[..i];
      var userSplit := FindSplit(exps[i].splits, me);
      if userSplit.Some? {
        totalSpent := totalSpent + userSplit.value.amount;
      }
      i := i + 1;
    }
    assert exps[..i] == exps;
  }

  lemma SpendSnoc(exps: seq<Expense>, e: Expense, me: UserId)
    ensures Spend(exps + [e], me) == Spend(exps, me) + MyShare(e, me)
  {
    assert (exps + [e])[..|exps|] == exps;
  }

  /**
   * The involvement filter does not change the total: an expense the
   * caller only paid, without a split of its own, adds nothing.
   */
  lemma {:induction false} SpendIgnoresPayerOnly(expenses: seq<Expense>, me: UserId, startOfYear: int)
    ensures Spend(SpendExpenses(expenses, me, startOfYear), me) == Spend(DatedFrom(expenses, startOfYear), me)
    decreases |expenses|
  {
    if expenses != [] {
      var front, e := expenses[..|expenses| - 1], expenses[|expenses| - 1];
      SpendIgnoresPayerOnly(front, me, startOfYear);
      var A, S := SpendExpenses(front, me, startOfYear), DatedFrom(front, startOfYear);
      SpendSnoc(A, e, me);
      SpendSnoc(S, e, me);
      assert A + [] == A && S + [] == S;
    }
  }

  datatype MonthTotal = MonthTotal(month: int, total: int)

  /** The caller's shares of the expenses of `exps` in the month starting at `m`. */
  function MonthSpend(exps: seq<Expense>, me: UserId, monthOf: int -> int, m: int): int
    decreases |exps|
  {
    if exps == [] then 0
    else
      var e := exps[|exps| - 1];
      MonthSpend(exps[..|exps| - 1], me, monthOf, m) + (if monthOf(e.date) == m then MyShare(e, me) else 0)
  }

  /** The monthly totals over the months `ms`, added up. */
  function SumMonths(exps: seq<Expense>, me: UserId, monthOf: int -> int, ms: seq<int>): int
    decreases |ms|
  {
    if ms == [] then 0 else SumMonths(exps, me, monthOf, ms[..|ms| - 1]) + MonthSpend(exps, me, monthOf, ms[|ms| - 1])
  }

  /** One more expense adds its share to the one month among `ms` it falls in, if any. */
  lemma {:induction false} SumMonthsStep(exps: seq<Expense>, me: UserId, monthOf: int -> int, ms: seq<int>)
    requires exps != [] && Distinct(ms)
    ensures var e := exps[|exps| - 1];
            SumMonths(exps, me, monthOf, ms)
            == SumMonths(exps[..|exps| - 1], me, monthOf, ms) + (if monthOf(e.date) in ms then MyShare(e, me) else 0)
    decreases |ms|
  {
    if ms != [] {
      var front := ms[..|ms| - 1];
      DistinctFront(ms);
      SumMonthsStep(exps, me, monthOf, front);
      assert forall x :: x in ms <==> x in front || x == ms[|ms| - 1];
    }
  }

  /**
   * When every expense with a share falls in one of the distinct months
   * `ms`, the monthly totals add up to the total spend.
   */
  lemma {:induction false} MonthsAddUpToSpend(exps: seq<Expense>, me: UserId, monthOf: int -> int, ms: seq<int>)
    requires Distinct(ms)
    requires forall e :: e in exps && HasSplit(e.splits, me) ==> monthOf(e.date) in ms
    ensures SumMonths(exps, me, monthOf, ms) == Spend(exps, me)
    decreases |exps|
  {
    if exps == [] {
      SumMonthsEmpty(me, monthOf, ms);
    } else {
      var front := exps[..|exps| - 1];
      assert forall e :: e in front ==> e in exps;
      MonthsAddUpToSpend(front, me, monthOf, ms);
      SumMonthsStep(exps, me, monthOf, ms);
    }
  }

  lemma {:induction false} SumMonthsEmpty(me: UserId, monthOf: int -> int, ms: seq<int>)
    ensures SumMonths([], me, monthOf, ms) == 0
    decreases |ms|
  {
    if ms != [] {
      SumMonthsEmpty(me, monthOf, ms[..|ms| - 1]);
    }
  }

  /**
   * `getMonthlySpending`, with the twelve month starts of the current year
   * and the month start of a date as inputs: one row per month, in month
   * order, each with the caller's shares of that month's expenses (0 for a
   * month without any).
   */
  method MonthlySpending(me: UserId, expenses: seq<Expense>, startOfYear: int,
                         monthStarts: seq<int>, monthOf: int -> int)
    returns (result: seq<MonthTotal>)
    requires |monthStarts| == 12 && Distinct(monthStarts)
    requires forall e :: e in SpendExpenses(expenses, me, startOfYear) && HasSplit(e.splits, me) ==> monthOf(e.date) in monthStarts
    ensures |result| == 12
    ensures forall i :: 0 <= i < 12 ==>
              result[i] == MonthTotal(monthStarts[i], MonthSpend(SpendExpenses(expenses, me, startOfYear), me, monthOf, monthStarts[i]))
  {
    var exps := SpendExpenses(expenses, me, startOfYear);
    var totals: map<int, int> := map[];
    var i := 0;
    while i < 12
      invariant 0 <= i <= 12
      invariant totals.Keys == set m | m in monthStarts[..i]
      invariant forall m :: m in totals ==> totals[m] == 0
    {
      assert forall m :: m in monthStarts[..i + 1] <==> m in monthStarts[..i] || m == monthStarts[i];
      totals := totals[monthStarts[i] := 0];
      i := i + 1;
    }
    assert monthStarts[..12] == monthStarts;
    var k := 0;
    while k < |exps|
      invariant 0 <= k <= |exps|
      invariant totals.Keys == set m | m in monthStarts
      invariant forall m :: m in totals ==> totals[m] == MonthSpend(exps[..k], me, monthOf, m)
    {
      var e := exps[k];
      assert exps[..k + 1][..k] == exps[..k];
      var userSplit := FindSplit(e.splits, me);
      if userSplit.Some? {
        var m := monthOf(e.date);
        assert m in monthStarts;
        totals := totals[m := totals[m] + userSplit.value.amount];
      }
      k := k + 1;
    }
    assert exps[..k] == exps;
    result := seq(12, j requires 0 <= j < 12 => MonthTotal(monthStarts[j], totals[monthStarts[j]]));
  }

  /** The monthly rows add up to `getTotalSpend`'s total for the same year start. */
  lemma MonthlyMatchesTotal(me: UserId, expenses: seq<Expense>, startOfYear: int, monthStarts: seq<int>, monthOf: int -> int)
    requires Distinct(monthStarts)
    requires forall e :: e in SpendExpenses(expenses, me, startOfYear) && HasSplit(e.splits, me) ==> monthOf(e.date) in monthStarts
    ensures SumMonths(SpendExpenses(expenses, me, startOfYear), me, monthOf, monthStarts)
            == Spend(SpendExpenses(expenses, me, startOfYear), me)
  {
    MonthsAddUpToSpend(SpendExpenses(expenses, me, startOfYear), me, monthOf, monthStarts);
  }

  // ---------------------------------------------------------------------
  // getUserGroups
  // ---------------------------------------------------------------------

  /** The unpaid splits of others on an expense the caller paid, added up. */
  function OthersUnpaid(splits: seq<Split>, me: UserId): int
    decreases |splits|
  {
    if splits == [] then 0
    else
      var s := splits[|splits| - 1];
      OthersUnpaid(splits[..|splits| - 1], me) + (if s.userId != me && !s.paid then s.amount else 0)
  }

  /**
   * What one group expense does to the caller's balance: on the caller's
   * own expense the others' unpaid splits count for the caller; on
   * another's expense the caller's first split, when unpaid, counts against.
   */
  function ExpenseBalance(e: Expense, me: UserId): int {
    if e.paidBy == me then OthersUnpaid(e.splits, me)
    else
      var mine := FindSplit(e.splits, me);
      if mine.Some? && !mine.value.paid then -mine.value.amount else 0
  }

  function ExpensesBalance(exps: seq<Expense>, me: UserId): int
    decreases |exps|
  {
    if exps == [] then 0 else ExpensesBalance(exps[..|exps| - 1], me) + ExpenseBalance(exps[|exps| - 1], me)
  }

  /** The group's settlements in which the caller is a party. */
  function MySettlementsIn(settlements: seq<Settlement>, groupId: GroupId, me: UserId): (r: seq<Settlement>)
    ensures forall s :: s in r <==> s in settlements && s.groupId == Some(groupId) && (s.paidBy == me || s.receivedBy == me)
  {
    Filter(settlements, (s: Settlement) => s.groupId == Some(groupId) && (s.paidBy == me || s.receivedBy == me))
  }

  /** A settlement the caller paid counts for the caller; any other counts against. */
  function SettlementBalance(s: Settlement, me: UserId): int {
    if s.paidBy == me then s.amount else -s.amount
  }

  function SettlementsBalance(sts: seq<Settlement>, me: UserId): int
    decreases |sts|
  {
    if sts == [] then 0 else SettlementsBalance(sts[..|sts| - 1], me) + SettlementBalance(sts[|sts| - 1], me)
  }

  /** The balance `getUserGroups` reports for one group. */
  function GroupBalanceOf(me: UserId, g: Group, expenses: seq<Expense>, settlements: seq<Settlement>): int {
    ExpensesBalance(Groups.GroupExpenses(expenses, g.id), me) + SettlementsBalance(MySettlementsIn(settlements, g.id, me), me)
  }

  /** `{ ...group, id, balance }` */
  datatype GroupWithBalance = GroupWithBalance(group: Group, balance: int)

  /** `getUserGroups`: every group whose roster holds the caller, in table order, with its balance. */
  method UserGroups(me: UserId, groups: seq<Group>, expenses: seq<Expense>, settlements: seq<Settlement>)
    returns (r: seq<GroupWithBalance>)
    ensures |r| == |GroupsOf(groups, me)|
    ensures forall i :: 0 <= i < |r| ==>
              r[i] == GroupWithBalance(GroupsOf(groups, me)[i], GroupBalanceOf(me, GroupsOf(groups, me)[i], expenses, settlements))
    ensures forall x :: x in r ==> x.group in groups && IsMember(x.group, me)
  {
    var mine := GroupsOf(groups, me);
    r := [];
    var i := 0;
    while i < |mine|
      invariant 0 <= i <= |mine|
      invariant |r| == i
      invariant forall k :: 0 <= k < i ==> r[k] == GroupWithBalance(mine[k], GroupBalanceOf(me, mine[k], expenses, settlements))
    {
      var balance := GroupBalance(me, mine[i], expenses, settlements);
      r := r + [GroupWithBalance(mine[i], balance)];
      i := i + 1;
    }
    assert forall x :: x in r ==> x.group in mine;
  }

  /** The balance of one group: the loop over its expenses, then the loop over the caller's settlements in it. */
  method GroupBalance(me: UserId, g: Group, expenses: seq<Expense>, settlements: seq<Settlement>) returns (balance: int)
    ensures balance == GroupBalanceOf(me, g, expenses, settlements)
  {
    var fromExpenses := ExpensesLoop(me, Groups.GroupExpenses(expenses, g.id));
    var fromSettlements := SettlementsLoop(me, MySettlementsIn(settlements, g.id, me));
    balance := fromExpenses + fromSettlements;
  }

  /** The loop over the group's expenses. */
  method ExpensesLoop(me: UserId, exps: seq<Expense>) returns (balance: int)
    ensures balance == ExpensesBalance(exps, me)
  {
    balance := 0;
    var i := 0;
    while i < |exps|
      invariant 0 <= i <= |exps|
      invariant balance == ExpensesBalance(exps[..i], me)
    {
      var e := exps[i];
      assert exps[..i + 1][..i] == exps[..i];
      if e.paidBy == me {
        var own := OwnSplitsBalance(me, e.splits);
        balance := balance + own;
      } else {
        var userSplit := FindSplit(e.splits, me);
        if userSplit.Some? && !userSplit.value.paid {
          balance := balance - userSplit.value.amount;
        }
      }
      i := i + 1;
    }
    assert exps[..i] == exps;
  }

  /** The loop over the caller's settlements in the group. */
  method SettlementsLoop(me: UserId, sts: seq<Settlement>) returns (balance: int)
    ensures balance == SettlementsBalance(sts, me)
  {
    balance := 0;
    var j := 0;
    while j < |sts|
      invariant 0 <= j <= |sts|
      invariant balance == SettlementsBalance(sts[..j], me)
    {
      assert sts[..j + 1][..j] == sts[..j];
      if sts[j].paidBy == me {
        balance := balance + sts[j].amount;
      } else {
        balance := balance - sts[j].amount;
      }
      j := j + 1;
    }
    assert sts[..j] == sts;
  }

  /** The `expense.splits.forEach` loop of the caller's own expense. */
  method OwnSplitsBalance(me: UserId, splits: seq<Split>) returns (sum: int)
    ensures sum == OthersUnpaid(splits, me)
  {
    sum := 0;
    var j := 0;
    while j < |splits|
      invariant 0 <= j <= |splits|
      invariant sum == OthersUnpaid(splits[..j], me)
    {
      assert splits[..j + 1][..j] == splits[..j];
      if splits[j].userId != me && !splits[j].paid {
        sum := sum + splits[j].amount;
      }
      j := j + 1;
    }
    assert splits[..j] == splits;
  }

  // ---------------------------------------------------------------------
  // getUserGroups against the group ledger
  // ---------------------------------------------------------------------

  /** At most one split of `u`. */
  predicate OneSplitOf(splits: seq<Split>, u: UserId) {
    forall i, j :: 0 <= i < |splits| && 0 <= j < |splits| && splits[i].userId == u && splits[j].userId == u ==> i == j
  }

  lemma CreditAt(T: Groups.Totals, u: UserId, d: int, x: UserId)
    ensures Groups.Tot(Groups.Credit(T, u, d), x) == Groups.Tot(T, x) + (if x == u then d else 0)
  {
  }

  /** The corrected split update moves the caller's total by the dashboard's share of the expense. */
  lemma {:induction false} NetSplitsAt(T: Groups.Totals, payer: UserId, splits: seq<Split>, me: UserId)
    ensures Groups.Tot(GroupLedger.NetSplits(T, payer, splits), me)
            == Groups.Tot(T, me) + (if payer == me then OthersUnpaid(splits, me) else -Settlements.SplitsOf(splits, me))
    decreases |splits|
  {
    if splits != [] {
      var front, s := splits[..|splits| - 1], splits[|splits| - 1];
      NetSplitsAt(T, payer, front, me);
      var M := GroupLedger.NetSplits(T, payer, front);
      if Groups.Counted(payer, s) {
        CreditAt(M, payer, s.amount, me);
        CreditAt(Groups.Credit(M, payer, s.amount), s.userId, -s.amount, me);
      }
    }
  }

  /** With at most one split of `u`, its unpaid splits add up to its first split's amount when that is unpaid. */
  lemma {:induction false} OneSplitSum(splits: seq<Split>, u: UserId)
    requires OneSplitOf(splits, u)
    ensures Settlements.SplitsOf(splits, u)
            == (var f := FindSplit(splits, u); if f.Some? && !f.value.paid then f.value.amount else 0)
    decreases |splits|
  {
    if splits != [] {
      var front, s := splits[..|splits| - 1], splits[|splits| - 1];
      assert OneSplitOf(front, u);
      OneSplitSum(front, u);
      var f, g := FindSplit(splits, u), FindSplit(front, u);
      if s.userId == u {
        assert !HasSplit(front, u);
        assert HasSplit(splits, u) by {
          assert splits[|splits| - 1].userId == u;
        }
      } else {
        if HasSplit(front, u) {
          var k :| 0 <= k < |front| && front[k].userId == u;
          assert splits[k] == front[k];
          assert HasSplit(splits, u);
          assert f.value == splits[k];
          assert g.value == front[k];
        } else {
          assert !HasSplit(splits, u);
        }
      }
    }
  }

  /** The corrected expense update moves the caller's total by the dashboard's expense balance. */
  lemma {:induction false} NetExpensesAt(T: Groups.Totals, exps: seq<Expense>, me: UserId)
    requires forall e :: e in exps ==> OneSplitOf(e.splits, me)
    ensures Groups.Tot(GroupLedger.NetExpenses(T, exps), me) == Groups.Tot(T, me) + ExpensesBalance(exps, me)
    decreases |exps|
  {
    if exps != [] {
      var front, e := exps[..|exps| - 1], exps[|exps| - 1];
      assert forall x :: x in front ==> x in exps;
      NetExpensesAt(T, front, me);
      NetSplitsAt(GroupLedger.NetExpenses(T, front), e.paidBy, e.splits, me);
      OneSplitSum(e.splits, me);
    }
  }

  /** What a settlement does to the caller's total on the group ledger. */
  function SettlementDelta(s: Settlement, me: UserId): int {
    if s.paidBy == me then s.amount else if s.receivedBy == me then -s.amount else 0
  }

  function SettlementsDelta(sts: seq<Settlement>, me: UserId): int
    decreases |sts|
  {
    if sts == [] then 0 else SettlementsDelta(sts[..|sts| - 1], me) + SettlementDelta(sts[|sts| - 1], me)
  }

  /** Between two different parties, the settlement update moves the caller's total by its delta. */
  lemma {:induction false} SettleTotalsAt(T: Groups.Totals, sts: seq<Settlement>, me: UserId)
    requires forall s :: s in sts ==> s.paidBy != s.receivedBy
    ensures Groups.Tot(GroupLedger.SettleTotals(T, sts), me) == Groups.Tot(T, me) + SettlementsDelta(sts, me)
    decreases |sts|
  {
    if sts != [] {
      var front, s := sts[..|sts| - 1], sts[|sts| - 1];
      assert forall x :: x in front ==> x in sts;
      SettleTotalsAt(T, front, me);
      var M := GroupLedger.SettleTotals(T, front);
      CreditAt(M, s.paidBy, s.amount, me);
      CreditAt(Groups.Credit(M, s.paidBy, s.amount), s.receivedBy, -s.amount, me);
    }
  }

  lemma BalanceSnoc(sts: seq<Settlement>, s: Settlement, me: UserId)
    ensures SettlementsBalance(sts + [s], me) == SettlementsBalance(sts, me) + SettlementBalance(s, me)
    ensures SettlementsDelta(sts + [s], me) == SettlementsDelta(sts, me) + SettlementDelta(s, me)
  {
    assert (sts + [s])[..|sts|] == sts;
  }

  /** Restricting the group's settlements to the caller's leaves out only settlements with delta 0. */
  lemma {:induction false} MySettlementsDelta(settlements: seq<Settlement>, groupId: GroupId, me: UserId)
    ensures SettlementsBalance(MySettlementsIn(settlements, groupId, me), me)
            == SettlementsDelta(Groups.GroupSettlements(settlements, groupId), me)
    decreases |settlements|
  {
    if settlements != [] {
      var front, s := settlements[..|settlements| - 1], settlements[|settlements| - 1];
      MySettlementsDelta(front, groupId, me);
      MySettlementsSnoc(settlements, groupId, me);
      PartsDelta(MySettlementsIn(front, groupId, me), Groups.GroupSettlements(front, groupId), s, groupId, me);
    }
  }

  /** The last settlement as each filter keeps it. */
  function MyPart(s: Settlement, groupId: GroupId, me: UserId): seq<Settlement> {
    if s.groupId == Some(groupId) && (s.paidBy == me || s.receivedBy == me) then [s] else []
  }

  function GroupPart(s: Settlement, groupId: GroupId): seq<Settlement> {
    if s.groupId == Some(groupId) then [s] else []
  }

  /** Both filters' handling of one settlement moves the two sums alike. */
  lemma PartsDelta(A: seq<Settlement>, G: seq<Settlement>, s: Settlement, groupId: GroupId, me: UserId)
    ensures SettlementsBalance(A + MyPart(s, groupId, me), me) - SettlementsBalance(A, me)
            == SettlementsDelta(G + GroupPart(s, groupId), me) - SettlementsDelta(G, me)
  {
    BalanceSnoc(A, s, me);
    BalanceSnoc(G, s, me);
    assert A + [] == A;
    assert G + [] == G;
  }

  /** How both filters treat the last settlement. */
  lemma MySettlementsSnoc(settlements: seq<Settlement>, groupId: GroupId, me: UserId)
    requires settlements != []
    ensures var front, s := settlements[..|settlements| - 1], settlements[|settlements| - 1];
            && MySettlementsIn(settlements, groupId, me) == MySettlementsIn(front, groupId, me) + MyPart(s, groupId, me)
            && Groups.GroupSettlements(settlements, groupId) == Groups.GroupSettlements(front, groupId) + GroupPart(s, groupId)
  {
  }

  /**
   * The dashboard's group balance is the caller's total on the group
   * ledger with the split update corrected, provided each group expense
   * holds at most one split of the caller and each group settlement has
   * two different parties.
   */
  lemma GroupBalanceIsCorrectedTotal(me: UserId, g: Group, expenses: seq<Expense>, settlements: seq<Settlement>)
    requires forall e :: e in Groups.GroupExpenses(expenses, g.id) ==> OneSplitOf(e.splits, me)
    requires forall s :: s in Groups.GroupSettlements(settlements, g.id) ==> s.paidBy != s.receivedBy
    ensures GroupBalanceOf(me, g, expenses, settlements)
            == Groups.Tot(GroupLedger.CorrectedTotals(MemberIds(g), Groups.GroupExpenses(expenses, g.id),
                                                      Groups.GroupSettlements(settlements, g.id)), me)
  {
    var exps, sts := Groups.GroupExpenses(expenses, g.id), Groups.GroupSettlements(settlements, g.id);
    var T0 := Groups.InitialTotals(MemberIds(g));
    assert Groups.Tot(T0, me) == 0;
    NetExpensesAt(T0, exps, me);
    SettleTotalsAt(GroupLedger.NetExpenses(T0, exps), sts, me);
    MySettlementsDelta(settlements, g.id, me);
  }
}
