/**
 * Settlements: the validation chain of `createSettlement`, and
 * `getSettlementData`, which reports what the caller and one other user
 * owe each other outside groups, or what the caller and each other member
 * of a group owe each other inside it. In both reports a settlement lowers
 * a running amount but never below zero.
 */
module Settlements {

  import opened Records

  // ---------------------------------------------------------------------
  // createSettlement
  // ---------------------------------------------------------------------

  datatype SettlementArgs = SettlementArgs(
    amount: int,
    note: Option<string>,
    paidBy: UserId,
    receivedBy: UserId,
    groupId: Option<GroupId>,
    relatedExpenseIds: Option<seq<ExpenseId>>)

  /**
   * `createSettlement`: the record inserted for `caller` at time `now`, or
   * the first failing check, in the order the checks run.
   */
  function CreateSettlement(caller: UserId, args: SettlementArgs, groups: seq<Group>, now: int): (r: Result<Settlement>)
    ensures args.amount <= 0 ==> r == Err(AmountNotPositive)
    ensures args.amount > 0 && args.paidBy == args.receivedBy ==> r == Err(SamePayerAndReceiver)
    ensures args.amount > 0 && args.paidBy != args.receivedBy && caller != args.paidBy && caller != args.receivedBy
            ==> r == Err(NotSettlementParty)
    ensures r.Err? && args.amount > 0 && args.paidBy != args.receivedBy && (caller == args.paidBy || caller == args.receivedBy)
            ==> args.groupId.Some? && (r.error == GroupNotFound || r.error == PartiesNotGroupMembers)
    ensures r.Ok? <==> && args.amount > 0 && args.paidBy != args.receivedBy
                       && (caller == args.paidBy || caller == args.receivedBy)
                       && (args.groupId.Some? ==> && GetGroup(groups, args.groupId.value).Some?
                                                  && IsMember(GetGroup(groups, args.groupId.value).value, args.paidBy)
                                                  && IsMember(GetGroup(groups, args.groupId.value).value, args.receivedBy))
    ensures r.Ok? ==> r.value == Settlement(args.amount, args.note, now, args.paidBy, args.receivedBy,
                                            args.groupId, args.relatedExpenseIds, caller)
  {
    if args.amount <= 0 then Err(AmountNotPositive)
    else if args.paidBy == args.receivedBy then Err(SamePayerAndReceiver)
    else if caller != args.paidBy && caller != args.receivedBy then Err(NotSettlementParty)
    else if args.groupId.Some? && GetGroup(groups, args.groupId.value).None? then Err(GroupNotFound)
    else if args.groupId.Some? && (!IsMember(GetGroup(groups, args.groupId.value).value, args.paidBy)
                                   || !IsMember(GetGroup(groups, args.groupId.value).value, args.receivedBy))
    then Err(PartiesNotGroupMembers)
    else
      Ok(Settlement(args.amount, args.note, now, args.paidBy, args.receivedBy, args.groupId, args.relatedExpenseIds, caller))
  }

  /**
   * A group settlement that `createSettlement` accepts is between two
   * different members of the group's roster, with a positive amount.
   */
  lemma CreatedSettlementWithinGroup(caller: UserId, args: SettlementArgs, groups: seq<Group>, now: int)
    requires CreateSettlement(caller, args, groups, now).Ok? && args.groupId.Some?
    ensures var s := CreateSettlement(caller, args, groups, now).value;
            var g := GetGroup(groups, args.groupId.value).value;
            && s.amount > 0 && s.paidBy != s.receivedBy
            && s.paidBy in MemberIds(g) && s.receivedBy in MemberIds(g)
            && s.groupId == Some(g.id)
  {
    var g := GetGroup(groups, args.groupId.value).value;
    MemberIdsIsMember(g, args.paidBy);
    MemberIdsIsMember(g, args.receivedBy);
  }

  // ---------------------------------------------------------------------
  // getSettlementData: the two running amounts
  // ---------------------------------------------------------------------

  /** `Math.max(0, x)` */
  function Max0(x: int): int {
    if x > 0 then x else 0
  }

  // ---------------------------------------------------------------------
  // getSettlementData, entityType "user"
  // ---------------------------------------------------------------------

  /** The non-group expenses paid by `u`, in table order (`by_user_and_group` index). */
  function PersonalPaidBy(expenses: seq<Expense>, u: UserId): (r: seq<Expense>)
    ensures forall e :: e in r <==> e in expenses && e.paidBy == u && e.groupId.None?
  {
    Filter(expenses, (e: Expense) => e.paidBy == u && e.groupId.None?)
  }

  /** The non-group settlements paid by `u`, in table order. */
  function PersonalSettlementsBy(settlements: seq<Settlement>, u: UserId): (r: seq<Settlement>)
    ensures forall s :: s in r <==> s in settlements && s.paidBy == u && s.groupId.None?
  {
    Filter(settlements, (s: Settlement) => s.paidBy == u && s.groupId.None?)
  }

  /**
   * One expense of the pair loop: skipped unless it involves both users;
   * otherwise the counterpart's first unpaid split counts as owed to the
   * caller when the caller paid, and the caller's first unpaid split counts
   * as owing when the counterpart paid.
   */
  function PairStep(t: Tally, me: UserId, other: UserId, e: Expense): Tally {
    if !Involves(e, me) || !Involves(e, other) then t
    else
      var owed := if e.paidBy == me then t.owed + AmountOf(FindUnpaidSplit(e.splits, other)) else t.owed;
      var owing := if e.paidBy == other then t.owing + AmountOf(FindUnpaidSplit(e.splits, me)) else t.owing;
      Tally(owed, owing)
  }

  /** The two amounts after the expense loop over `exps`. */
  function PairTally(me: UserId, other: UserId, exps: seq<Expense>): Tally
    decreases |exps|
  {
    if exps == [] then Tally(0, 0)
    else PairStep(PairTally(me, other, exps[..|exps| - 1]), me, other, exps[|exps| - 1])
  }

  /**
   * The involvement test of the pair loop never changes the outcome: an
   * expense the caller paid adds exactly the counterpart's first unpaid
   * split, one the counterpart paid adds exactly the caller's, and any
   * other expense adds nothing.
   */
  lemma PairStepDirect(t: Tally, me: UserId, other: UserId, e: Expense)
    ensures PairStep(t, me, other, e).owed == t.owed + (if e.paidBy == me then AmountOf(FindUnpaidSplit(e.splits, other)) else 0)
    ensures PairStep(t, me, other, e).owing == t.owing + (if e.paidBy == other then AmountOf(FindUnpaidSplit(e.splits, me)) else 0)
  {
    var so, sm := FindUnpaidSplit(e.splits, other), FindUnpaidSplit(e.splits, me);
    if so.Some? {
      var i :| 0 <= i < |e.splits| && e.splits[i].userId == other && !e.splits[i].paid;
      assert HasSplit(e.splits, other);
    }
    if sm.Some? {
      var i :| 0 <= i < |e.splits| && e.splits[i].userId == me && !e.splits[i].paid;
      assert HasSplit(e.splits, me);
    }
  }

  /** What the counterpart owes on the caller's expenses: its first unpaid split of each. */
  function OwedOn(exps: seq<Expense>, me: UserId, other: UserId): int
    decreases |exps|
  {
    if exps == [] then 0
    else
      var e := exps[|exps| - 1];
      OwedOn(exps[..|exps| - 1], me, other) + (if e.paidBy == me then AmountOf(FindUnpaidSplit(e.splits, other)) else 0)
  }

  /** The expense loop's two amounts are sums over the expenses each user paid. */
  lemma {:induction false} PairTallySums(me: UserId, other: UserId, exps: seq<Expense>)
    ensures PairTally(me, other, exps) == Tally(OwedOn(exps, me, other), OwedOn(exps, other, me))
    decreases |exps|
  {
    if exps != [] {
      PairTallySums(me, other, exps[..|exps| - 1]);
      PairStepDirect(PairTally(me, other, exps[..|exps| - 1]), me, other, exps[|exps| - 1]);
    }
  }

  /**
   * One settlement of the pair loop: one paid by the caller lowers what the
   * caller owes, any other lowers what the counterpart owes, whoever
   * received it; neither goes below zero.
   */
  function PairSettle(t: Tally, me: UserId, s: Settlement): Tally {
    if s.paidBy == me then t.(owing := Max0(t.owing - s.amount))
    else t.(owed := Max0(t.owed - s.amount))
  }

  function PairSettleAll(t: Tally, me: UserId, sts: seq<Settlement>): Tally
    decreases |sts|
  {
    if sts == [] then t
    else PairSettle(PairSettleAll(t, me, sts[..|sts| - 1]), me, sts[|sts| - 1])
  }

  /**
   * After the settlement loop, what the caller owes is never negative once
   * any settlement paid by the caller was applied, and otherwise unchanged;
   * likewise what the counterpart owes for the other settlements.
   */
  lemma {:induction false} PairSettleClamps(t: Tally, me: UserId, sts: seq<Settlement>)
    ensures var r := PairSettleAll(t, me, sts);
            && (r.owing >= 0 || (r.owing == t.owing && forall s :: s in sts ==> s.paidBy != me))
            && (r.owed >= 0 || (r.owed == t.owed && forall s :: s in sts ==> s.paidBy == me))
    decreases |sts|
  {
    if sts != [] {
      var front := sts[..|sts| - 1];
      PairSettleClamps(t, me, front);
      assert forall s :: s in sts <==> s in front || s == sts[|sts| - 1];
    }
  }

  /** Non-negative amounts stay non-negative through the settlement loop. */
  lemma PairSettleNonNegative(t: Tally, me: UserId, sts: seq<Settlement>)
    requires t.owed >= 0 && t.owing >= 0
    ensures PairSettleAll(t, me, sts).owed >= 0 && PairSettleAll(t, me, sts).owing >= 0
  {
    PairSettleClamps(t, me, sts);
  }

  /**
   * The clamped amounts never exceed the unclamped ones when settlement
   * amounts are positive: a settlement only ever lowers what is owed.
   */
  lemma {:induction false} PairSettleLowers(t: Tally, me: UserId, sts: seq<Settlement>)
    requires forall s :: s in sts ==> s.amount > 0
    requires t.owed >= 0 && t.owing >= 0
    ensures PairSettleAll(t, me, sts).owed <= t.owed && PairSettleAll(t, me, sts).owing <= t.owing
    decreases |sts|
  {
    if sts != [] {
      var front := sts[..|sts| - 1];
      assert forall s :: s in front ==> s in sts;
      PairSettleLowers(t, me, front);
      PairSettleClamps(t, me, front);
    }
  }

  datatype Counterpart = Counterpart(userId: UserId, name: Option<string>, email: Option<string>, imageUrl: Option<string>)

  datatype MemberBalance = MemberBalance(
    userId: UserId, name: string, imageUrl: Option<string>, youAreOwed: int, youOwe: int, netBalance: int)

  datatype GroupInfo = GroupInfo(id: GroupId, name: string, description: string)

  /** The two shapes of `getSettlementData`'s answer. */
  datatype SettlementData =
    | UserData(counterpart: Counterpart, youAreOwed: int, youOwe: int, netBalance: int)
    | GroupData(group: GroupInfo, balances: seq<MemberBalance>)

  /** The pair's amounts over the given records, before the lookups. */
  function PairResult(me: UserId, other: UserId, expenses: seq<Expense>, settlements: seq<Settlement>): Tally {
    var exps := PersonalPaidBy(expenses, me) + PersonalPaidBy(expenses, other);
    var sts := PersonalSettlementsBy(settlements, me) + PersonalSettlementsBy(settlements, other);
    PairSettleAll(PairTally(me, other, exps), me, sts)
  }

  /** `getSettlementData` with entityType "user". */
  method UserSettlementData(me: UserId, otherId: UserId, users: seq<User>,
                            expenses: seq<Expense>, settlements: seq<Settlement>)
    returns (r: Result<SettlementData>)
    ensures r.Err? <==> GetUser(users, otherId).None?
    ensures r.Err? ==> r.error == UserNotFound
    ensures r.Ok? ==>
              var o := GetUser(users, otherId).value;
              var t := PairResult(me, otherId, expenses, settlements);
              r.value == UserData(Counterpart(o.id, o.name, o.email, o.imageUrl), t.owed, t.owing, t.owed - t.owing)
  {
    var other := GetUser(users, otherId);
    if other.None? {
      return Err(UserNotFound);
    }
    var o := other.value;
    var exps := PersonalPaidBy(expenses, me) + PersonalPaidBy(expenses, o.id);
    var t := PairExpenses(me, o.id, exps);
    var sts := PersonalSettlementsBy(settlements, me) + PersonalSettlementsBy(settlements, o.id);
    t := PairSettlements(t, me, sts);
    r := Ok(UserData(Counterpart(o.id, o.name, o.email, o.imageUrl), t.owed, t.owing, t.owed - t.owing));
  }

  /** The `for (const exp of expenses)` loop of the pair branch. */
  method PairExpenses(me: UserId, other: UserId, exps: seq<Expense>) returns (t: Tally)
    ensures t == PairTally(me, other, exps)
    ensures t == Tally(OwedOn(exps, me, other), OwedOn(exps, other, me))
  {
    var owed, owing := 0, 0;
    var i := 0;
    while i < |exps|
      invariant 0 <= i <= |exps|
      invariant Tally(owed, owing) == PairTally(me, other, exps[..i])
    {
      var e := exps[i];
      assert exps[..i + 1][..i] == exps[..i];
      var involvesMe := e.paidBy == me || HasSplit(e.splits, me);
      var involvesThem := e.paidBy == other || HasSplit(e.splits, other);
      if involvesMe && involvesThem {
        if e.paidBy == me {
          var split := FindUnpaidSplit(e.splits, other);
          if split.Some? {
            owed := owed + split.value.amount;
          }
        }
        if e.paidBy == other {
          var split := FindUnpaidSplit(e.splits, me);
          if split.Some? {
            owing := owing + split.value.amount;
          }
        }
      }
      i := i + 1;
    }
    t := Tally(owed, owing);
    assert exps[..i] == exps;
    PairTallySums(me, other, exps);
  }

  /** The `for (const st of settlements)` loop of the pair branch. */
  method PairSettlements(t0: Tally, me: UserId, sts: seq<Settlement>) returns (t: Tally)
    ensures t == PairSettleAll(t0, me, sts)
    ensures t.owing >= 0 || (t.owing == t0.owing && forall s :: s in sts ==> s.paidBy != me)
    ensures t.owed >= 0 || (t.owed == t0.owed && forall s :: s in sts ==> s.paidBy == me)
  {
    t := t0;
    var i := 0;
    while i < |sts|
      invariant 0 <= i <= |sts|
      invariant t == PairSettleAll(t0, me, sts[..i])
    {
      var st := sts[i];
      assert sts[..i + 1][..i] == sts[..i];
      if st.paidBy == me {
        t := t.(owing := Max0(t.owing - st.amount));
      } else {
        t := t.(owed := Max0(t.owed - st.amount));
      }
      i := i + 1;
    }
    assert sts[..i] == sts;
    PairSettleClamps(t0, me, sts);
  }

  // ---------------------------------------------------------------------
  // getSettlementData, entityType "group"
  // ---------------------------------------------------------------------

  /** The `balances` record: one entry per member other than the caller. */
  type Tallies = map<UserId, Tally>

  /** `Object.keys(balances)`: the members other than the caller, once each, in roster order. */
  function BalanceKeys(g: Group, me: UserId): (r: seq<UserId>)
    ensures Distinct(r) && me !in r
    ensures forall u :: u in r <==> IsMember(g, u) && u != me
  {
    var ids := MemberIds(g);
    forall u ensures u in ids <==> IsMember(g, u) {
      MemberIdsIsMember(g, u);
    }
    Dedup(Filter(ids, (u: UserId) => u != me))
  }

  function ZeroTallies(keys: seq<UserId>): (r: Tallies)
    ensures r.Keys == set u | u in keys
    ensures forall u :: u in r ==> r[u] == Tally(0, 0)
  {
    map u | u in keys :: Tally(0, 0)
  }

  /** `balances[u].owed += amt` */
  function AddOwed(T: Tallies, u: UserId, amt: int): Tallies
    requires u in T
  {
    T[u := T[u].(owed := T[u].owed + amt)]
  }

  /** `balances[u].owing += amt` */
  function AddOwing(T: Tallies, u: UserId, amt: int): Tallies
    requires u in T
  {
    T[u := T[u].(owing := T[u].owing + amt)]
  }

  /** The `exp.splits.forEach` of an expense the caller paid; a split of a non-member is left out. */
  function OwedSplits(T: Tallies, me: UserId, splits: seq<Split>): (r: Tallies)
    ensures r.Keys == T.Keys
    decreases |splits|
  {
    if splits == [] then T
    else
      var s := splits[|splits| - 1];
      var M := OwedSplits(T, me, splits[..|splits| - 1]);
      if s.userId != me && !s.paid && s.userId in M then AddOwed(M, s.userId, s.amount) else M
  }

  /**
   * One expense of the group loop: on the caller's expense every other
   * unpaid split is owed to the caller; on a member's expense the caller's
   * first unpaid split is owed to that member; other expenses are skipped.
   */
  function GroupStep(T: Tallies, me: UserId, e: Expense): (r: Tallies)
    ensures r.Keys == T.Keys
  {
    if e.paidBy == me then OwedSplits(T, me, e.splits)
    else if e.paidBy in T then
      var s := FindUnpaidSplit(e.splits, me);
      if s.Some? then AddOwing(T, e.paidBy, s.value.amount) else T
    else T
  }

  function GroupTally(T: Tallies, me: UserId, exps: seq<Expense>): (r: Tallies)
    ensures r.Keys == T.Keys
    decreases |exps|
  {
    if exps == [] then T
    else GroupStep(GroupTally(T, me, exps[..|exps| - 1]), me, exps[|exps| - 1])
  }

  /** One settlement of the group loop: only settlements between the caller and a member touch the record. */
  function GroupSettle(T: Tallies, me: UserId, s: Settlement): (r: Tallies)
    ensures r.Keys == T.Keys
  {
    var T1 := if s.paidBy == me && s.receivedBy in T
              then T[s.receivedBy := T[s.receivedBy].(owing := Max0(T[s.receivedBy].owing - s.amount))]
              else T;
    if s.receivedBy == me && s.paidBy in T1
    then T1[s.paidBy := T1[s.paidBy].(owed := Max0(T1[s.paidBy].owed - s.amount))]
    else T1
  }

  function GroupSettleAll(T: Tallies, me: UserId, sts: seq<Settlement>): (r: Tallies)
    ensures r.Keys == T.Keys
    decreases |sts|
  {
    if sts == [] then T
    else GroupSettle(GroupSettleAll(T, me, sts[..|sts| - 1]), me, sts[|sts| - 1])
  }

  /** Every entry is non-negative. */
  predicate AllNonNegative(T: Tallies) {
    forall u :: u in T ==> T[u].owed >= 0 && T[u].owing >= 0
  }

  /** The group settlement loop keeps every entry non-negative. */
  lemma {:induction false} GroupSettleNonNegative(T: Tallies, me: UserId, sts: seq<Settlement>)
    requires AllNonNegative(T)
    ensures AllNonNegative(GroupSettleAll(T, me, sts))
    decreases |sts|
  {
    if sts != [] {
      GroupSettleNonNegative(T, me, sts[..|sts| - 1]);
    }
  }

  /**
   * The group settlement loop only ever changes the entries of the two
   * parties of a settlement with the caller.
   */
  lemma {:induction false} GroupSettleTouches(T: Tallies, me: UserId, sts: seq<Settlement>, u: UserId)
    requires u in T
    requires forall s :: s in sts ==> !(s.paidBy == me && s.receivedBy == u) && !(s.receivedBy == me && s.paidBy == u)
    ensures GroupSettleAll(T, me, sts)[u] == T[u]
    decreases |sts|
  {
    if sts != [] {
      var front := sts[..|sts| - 1];
      assert forall s :: s in front ==> s in sts;
      GroupSettleTouches(T, me, front, u);
    }
  }

  /** What the caller's expenses make `u` owe the caller: every unpaid split of `u` on them. */
  function SplitsOf(splits: seq<Split>, u: UserId): int
    decreases |splits|
  {
    if splits == [] then 0
    else
      var s := splits[|splits| - 1];
      SplitsOf(splits[..|splits| - 1], u) + (if s.userId == u && !s.paid then s.amount else 0)
  }

  function OwedByMember(exps: seq<Expense>, me: UserId, u: UserId): int
    decreases |exps|
  {
    if exps == [] then 0
    else
      var e := exps[|exps| - 1];
      OwedByMember(exps[..|exps| - 1], me, u) + (if e.paidBy == me then SplitsOf(e.splits, u) else 0)
  }

  lemma {:induction false} OwedSplitsEntry(T: Tallies, me: UserId, splits: seq<Split>, u: UserId)
    requires u in T && u != me
    ensures OwedSplits(T, me, splits)[u] == T[u].(owed := T[u].owed + SplitsOf(splits, u))
    decreases |splits|
  {
    if splits != [] {
      OwedSplitsEntry(T, me, splits[..|splits| - 1], u);
    }
  }

  /**
   * Before the settlements, a member's entry holds every unpaid split of
   * that member on the caller's expenses as owed, and the caller's first
   * unpaid split on each of that member's expenses as owing.
   */
  lemma {:induction false} GroupTallyEntry(T: Tallies, me: UserId, exps: seq<Expense>, u: UserId)
    requires u in T && u != me
    ensures GroupTally(T, me, exps)[u] == Tally(T[u].owed + OwedByMember(exps, me, u), T[u].owing + OwedOn(exps, u, me))
    decreases |exps|
  {
    if exps != [] {
      var front, e := exps[..|exps| - 1], exps[|exps| - 1];
      GroupTallyEntry(T, me, front, u);
      var M := GroupTally(T, me, front);
      if e.paidBy == me {
        OwedSplitsEntry(M, me, e.splits, u);
      }
    }
  }

  /** An entry of the answer's list: `m?.name || "Unknown"` falls back on a missing or empty name. */
  function ListEntry(u: UserId, t: Tally, users: seq<User>): MemberBalance {
    var m := GetUser(users, u);
    var name := if m.Some? && m.value.name.Some? && m.value.name.value != "" then m.value.name.value else "Unknown";
    MemberBalance(u, name, if m.Some? then m.value.imageUrl else None, t.owed, t.owing, t.owed - t.owing)
  }

  /** The answer's list: one entry per key of the record, in key order, each with its net balance. */
  function BalanceList(keys: seq<UserId>, T: Tallies, users: seq<User>): (r: seq<MemberBalance>)
    requires forall u :: u in keys ==> u in T
    ensures |r| == |keys|
    ensures forall i :: 0 <= i < |r| ==>
              && r[i].userId == keys[i] && r[i].youAreOwed == T[keys[i]].owed
              && r[i].youOwe == T[keys[i]].owing && r[i].netBalance == r[i].youAreOwed - r[i].youOwe
  {
    seq(|keys|, i requires 0 <= i < |keys| => ListEntry(keys[i], T[keys[i]], users))
  }

  /** The group's expenses and settlements (`by_group` index and `groupId` filter). */
  function ExpensesOfGroup(expenses: seq<Expense>, gid: GroupId): (r: seq<Expense>)
    ensures forall e :: e in r <==> e in expenses && e.groupId == Some(gid)
  {
    Filter(expenses, (e: Expense) => e.groupId == Some(gid))
  }

  function SettlementsOfGroup(settlements: seq<Settlement>, gid: GroupId): (r: seq<Settlement>)
    ensures forall s :: s in r <==> s in settlements && s.groupId == Some(gid)
  {
    Filter(settlements, (s: Settlement) => s.groupId == Some(gid))
  }

  /**
   * What the group loop needs to stay on defined entries: on the caller's
   * expenses in the group, every other unpaid split belongs to a member
   * (`balances[split.userId].owed += …` has no entry to add to otherwise).
   */
  predicate OwnSplitsWithinRoster(me: UserId, groups: seq<Group>, expenses: seq<Expense>, gid: GroupId) {
    var g := GetGroup(groups, gid);
    g.Some? ==>
      forall e, s :: e in expenses && e.groupId == Some(gid) && e.paidBy == me && s in e.splits && s.userId != me && !s.paid
                     ==> IsMember(g.value, s.userId)
  }

  /** The per-member record the group branch reports on. */
  function GroupResult(me: UserId, g: Group, expenses: seq<Expense>, settlements: seq<Settlement>): (r: Tallies)
    ensures r.Keys == set u | u in BalanceKeys(g, me)
  {
    var keys := BalanceKeys(g, me);
    GroupSettleAll(GroupTally(ZeroTallies(keys), me, ExpensesOfGroup(expenses, g.id)), me, SettlementsOfGroup(settlements, g.id))
  }

  /**
   * The per-member record, entry by entry: before the settlements, what the
   * member owes is every unpaid split of theirs on the caller's group
   * expenses, and what the caller owes is its first unpaid split on each
   * group expense the member paid; the settlements then only lower these
   * towards zero.
   */
  lemma GroupResultEntry(me: UserId, g: Group, expenses: seq<Expense>, settlements: seq<Settlement>, u: UserId)
    requires IsMember(g, u) && u != me
    ensures var raw := GroupTally(ZeroTallies(BalanceKeys(g, me)), me, ExpensesOfGroup(expenses, g.id));
            && u in raw
            && raw[u] == Tally(OwedByMember(ExpensesOfGroup(expenses, g.id), me, u), OwedOn(ExpensesOfGroup(expenses, g.id), u, me))
  {
    var T := ZeroTallies(BalanceKeys(g, me));
    GroupTallyEntry(T, me, ExpensesOfGroup(expenses, g.id), u);
  }

  /** `getSettlementData` with entityType "group". */
  method GroupSettlementData(me: UserId, gid: GroupId, groups: seq<Group>, users: seq<User>,
                             expenses: seq<Expense>, settlements: seq<Settlement>)
    returns (r: Result<SettlementData>)
    requires OwnSplitsWithinRoster(me, groups, expenses, gid)
    ensures GetGroup(groups, gid).None? ==> r == Err(GroupNotFound)
    ensures GetGroup(groups, gid).Some? && !IsMember(GetGroup(groups, gid).value, me) ==> r == Err(NotGroupMember)
    ensures r.Ok? <==> GetGroup(groups, gid).Some? && IsMember(GetGroup(groups, gid).value, me)
    ensures r.Ok? ==>
              var g := GetGroup(groups, gid).value;
              var keys := BalanceKeys(g, me);
              r.value == GroupData(GroupInfo(g.id, g.name, g.description),
                                   BalanceList(keys, GroupResult(me, g, expenses, settlements), users))
  {
    var group := GetGroup(groups, gid);
    if group.None? {
      return Err(GroupNotFound);
    }
    var g := group.value;
    if !IsMember(g, me) {
      return Err(NotGroupMember);
    }
    var keys := BalanceKeys(g, me);
    var exps := ExpensesOfGroup(expenses, g.id);
    var balances := ZeroTallies(keys);
    balances := GroupExpenses(balances, me, exps, g);
    var sts := SettlementsOfGroup(settlements, g.id);
    balances := GroupSettlements(balances, me, sts);
    r := Ok(GroupData(GroupInfo(g.id, g.name, g.description), BalanceList(keys, balances, users)));
  }

  /** The `for (const exp of expenses)` loop of the group branch. */
  method GroupExpenses(T0: Tallies, me: UserId, exps: seq<Expense>, ghost g: Group)
    returns (T: Tallies)
    requires forall u :: u in T0 <==> IsMember(g, u) && u != me
    requires forall e, s :: e in exps && e.paidBy == me && s in e.splits && s.userId != me && !s.paid ==> IsMember(g, s.userId)
    ensures T == GroupTally(T0, me, exps)
  {
    T := T0;
    var i := 0;
    while i < |exps|
      invariant 0 <= i <= |exps|
      invariant T == GroupTally(T0, me, exps[..i])
      invariant T.Keys == T0.Keys
    {
      var e := exps[i];
      assert exps[..i + 1][..i] == exps[..i];
      if e.paidBy == me {
        T := OwnExpense(T, me, e.splits, g);
      } else if e.paidBy in T {
        var split := FindUnpaidSplit(e.splits, me);
        if split.Some? {
          T := AddOwing(T, e.paidBy, split.value.amount);
        }
      }
      i := i + 1;
    }
    assert exps[..i] == exps;
  }

  /** The `exp.splits.forEach` of an expense the caller paid. */
  method OwnExpense(T0: Tallies, me: UserId, splits: seq<Split>, ghost g: Group) returns (T: Tallies)
    requires forall u :: u in T0 <==> IsMember(g, u) && u != me
    requires forall s :: s in splits && s.userId != me && !s.paid ==> IsMember(g, s.userId)
    ensures T == OwedSplits(T0, me, splits)
  {
    T := T0;
    var j := 0;
    while j < |splits|
      invariant 0 <= j <= |splits|
      invariant T == OwedSplits(T0, me, splits[..j])
    {
      var s := splits[j];
      assert splits[..j + 1][..j] == splits[..j];
      if s.userId != me && !s.paid {
        assert s in splits;
        T := T[s.userId := T[s.userId].(owed := T[s.userId].owed + s.amount)];
      }
      j := j + 1;
    }
    assert splits[..j] == splits;
  }

  /** The `for (const st of settlements)` loop of the group branch. */
  method GroupSettlements(T0: Tallies, me: UserId, sts: seq<Settlement>) returns (T: Tallies)
    ensures T == GroupSettleAll(T0, me, sts)
    ensures AllNonNegative(T0) ==> AllNonNegative(T)
  {
    T := T0;
    var i := 0;
    while i < |sts|
      invariant 0 <= i <= |sts|
      invariant T == GroupSettleAll(T0, me, sts[..i])
    {
      var st := sts[i];
      assert sts[..i + 1][..i] == sts[..i];
      if st.paidBy == me && st.receivedBy in T {
        T := T[st.receivedBy := T[st.receivedBy].(owing := Max0(T[st.receivedBy].owing - st.amount))];
      }
      if st.receivedBy == me && st.paidBy in T {
        T := T[st.paidBy := T[st.paidBy].(owed := Max0(T[st.paidBy].owed - st.amount))];
      }
      i := i + 1;
    }
    assert sts[..i] == sts;
    if AllNonNegative(T0) {
      GroupSettleNonNegative(T0, me, sts);
    }
  }

  /**
   * The group branch answers with exactly one entry per member other than
   * the caller, each once, and each with its net balance.
   */
  lemma GroupDataEntries(me: UserId, g: Group, users: seq<User>, expenses: seq<Expense>, settlements: seq<Settlement>)
    ensures var list := BalanceList(BalanceKeys(g, me), GroupResult(me, g, expenses, settlements), users);
            && (forall u :: (exists i :: 0 <= i < |list| && list[i].userId == u) <==> IsMember(g, u) && u != me)
            && (forall i, j :: 0 <= i < j < |list| ==> list[i].userId != list[j].userId)
  {
    var keys := BalanceKeys(g, me);
    var list := BalanceList(keys, GroupResult(me, g, expenses, settlements), users);
    forall u | IsMember(g, u) && u != me ensures exists i :: 0 <= i < |list| && list[i].userId == u {
      var i :| 0 <= i < |keys| && keys[i] == u;
      assert list[i].userId == u;
    }
  }

  // ---------------------------------------------------------------------
  // getSettlementData
  // ---------------------------------------------------------------------

  /** `getSettlementData`: the user branch, the group branch, or an error for any other entity type. */
  method GetSettlementData(me: UserId, entityType: string, entityId: nat, groups: seq<Group>, users: seq<User>,
                           expenses: seq<Expense>, settlements: seq<Settlement>)
    returns (r: Result<SettlementData>)
    requires entityType == "group" ==> OwnSplitsWithinRoster(me, groups, expenses, entityId)
    ensures entityType != "user" && entityType != "group" ==> r == Err(InvalidEntityType)
    ensures entityType == "user" ==> (r.Err? <==> GetUser(users, entityId).None?)
    ensures entityType == "user" && r.Err? ==> r.error == UserNotFound
    ensures entityType == "user" && r.Ok? ==>
              var o := GetUser(users, entityId).value;
              var t := PairResult(me, entityId, expenses, settlements);
              r.value == UserData(Counterpart(o.id, o.name, o.email, o.imageUrl), t.owed, t.owing, t.owed - t.owing)
    ensures entityType == "group" && GetGroup(groups, entityId).None? ==> r == Err(GroupNotFound)
    ensures entityType == "group" && GetGroup(groups, entityId).Some? && !IsMember(GetGroup(groups, entityId).value, me) ==>
              r == Err(NotGroupMember)
    ensures entityType == "group" ==> (r.Ok? <==> GetGroup(groups, entityId).Some? && IsMember(GetGroup(groups, entityId).value, me))
    ensures entityType == "group" && r.Ok? ==>
              var g := GetGroup(groups, entityId).value;
              r.value == GroupData(GroupInfo(g.id, g.name, g.description),
                                   BalanceList(BalanceKeys(g, me), GroupResult(me, g, expenses, settlements), users))
  {
    if entityType == "user" {
      r := UserSettlementData(me, entityId, users, expenses, settlements);
    } else if entityType == "group" {
      r := GroupSettlementData(me, entityId, groups, users, expenses, settlements);
    } else {
      r := Err(InvalidEntityType);
    }
  }
}
