/**
 * The group pages' server functions: the caller's group listing with an
 * optional selected group (`getGroupOrMembers`), and the group ledger
 * (`getGroupExpenses`): a debtor-to-creditor matrix over every ordered pair
 * of members, filled from the group's unpaid splits, reduced by its
 * settlements, then netted pair by pair so that at most one direction of
 * each pair stays positive.
 */
module Groups {

  import opened Records

  // ---------------------------------------------------------------------
  // getGroupOrMembers
  // ---------------------------------------------------------------------

  datatype MemberDetail = MemberDetail(
    id: UserId, name: Option<string>, email: Option<string>, imageUrl: Option<string>, role: Role)

  datatype SelectedGroup = SelectedGroup(
    id: GroupId, name: string, description: string, createdBy: UserId, members: seq<MemberDetail>)

  datatype GroupListing = GroupListing(selectedGroup: Option<SelectedGroup>, groups: seq<GroupSummary>)

  function Detail(u: User, role: Role): MemberDetail {
    MemberDetail(u.id, u.name, u.email, u.imageUrl, role)
  }

  /**
   * The roster's members that have a user row, each with that row's fields
   * and its roster role, in roster order; members without a row are dropped.
   */
  function MemberDetails(members: seq<Membership>, users: seq<User>): (r: seq<MemberDetail>)
    ensures |r| <= |members|
    ensures forall d :: d in r <==>
              exists m :: m in members && GetUser(users, m.userId).Some? && d == Detail(GetUser(users, m.userId).value, m.role)
    decreases |members|
  {
    if members == [] then []
    else
      var front := MemberDetails(members[..|members| - 1], users);
      var m := members[|members| - 1];
      assert forall x :: x in members <==> x in members[..|members| - 1] || x == m;
      var u := GetUser(users, m.userId);
      if u.Some? then front + [Detail(u.value, m.role)] else front
  }

  function Selected(g: Group, users: seq<User>): SelectedGroup {
    SelectedGroup(g.id, g.name, g.description, g.createdBy, MemberDetails(g.members, users))
  }

  /**
   * `getGroupOrMembers`: the summaries of the caller's groups and, when a
   * group id is asked for, that group's details; asking for a group the
   * caller is not in (or that does not exist) is an error.
   */
  function GetGroupOrMembers(me: UserId, groups: seq<Group>, users: seq<User>, groupId: Option<GroupId>)
    : (r: Result<GroupListing>)
    ensures r.Err? <==> groupId.Some? && !exists g :: g in groups && IsMember(g, me) && g.id == groupId.value
    ensures r.Err? ==> r.error == GroupNotFoundOrNotMember
    ensures r.Ok? ==> r.value.groups == GroupSummaries(groups, me)
    ensures r.Ok? ==> (r.value.selectedGroup.Some? <==> groupId.Some?)
    ensures r.Ok? && groupId.Some? ==>
              exists g :: g in groups && IsMember(g, me) && g.id == groupId.value
                          && r.value.selectedGroup.value == Selected(g, users)
  {
    var mine := GroupsOf(groups, me);
    var summaries := GroupSummaries(groups, me);
    if groupId.None? then Ok(GroupListing(None, summaries))
    else
      var found := GetGroup(mine, groupId.value);
      assert found.None? ==> !exists g :: g in groups && IsMember(g, me) && g.id == groupId.value by {
        if found.None? {
          forall g | g in groups && IsMember(g, me) ensures g.id != groupId.value {
            assert g in mine;
          }
        }
      }
      if found.None? then Err(GroupNotFoundOrNotMember)
      else Ok(GroupListing(Some(Selected(found.value, users)), summaries))
  }

  // ---------------------------------------------------------------------
  // getGroupExpenses: the ledger and the totals
  // ---------------------------------------------------------------------

  /** `ledger[debtor][creditor]`: what `debtor` still owes `creditor`. */
  type Ledger = map<UserId, map<UserId, int>>

  /** `totals[member]` */
  type Totals = map<UserId, int>

  /** The two tables `getGroupExpenses` fills. */
  datatype GroupBook = GroupBook(ledger: Ledger, totals: Totals)

  /** A ledger with one row per member, holding one cell per other member. */
  ghost predicate Shaped(L: Ledger, ids: seq<UserId>) {
    && (forall a :: a in L <==> a in ids)
    && (forall a, b :: a in L ==> (b in L[a] <==> b in ids && b != a))
  }

  /** Totals with one entry per member. */
  ghost predicate TotalsOver(T: Totals, ids: seq<UserId>) {
    forall u :: u in T <==> u in ids
  }

  /** `r` has exactly the rows and cells of `L`. */
  ghost predicate SameCells(L: Ledger, r: Ledger) {
    r.Keys == L.Keys && forall a :: a in L ==> r[a].Keys == L[a].Keys
  }

  lemma ShapedSameCells(L: Ledger, r: Ledger, ids: seq<UserId>)
    requires Shaped(L, ids) && SameCells(L, r)
    ensures Shaped(r, ids)
  {
  }

  /** Every row and cell of `L` is still present in `r`. */
  ghost predicate Grows(L: Ledger, r: Ledger) {
    forall a :: a in L ==> a in r && forall b :: b in L[a] ==> b in r[a]
  }

  /** A ledger cell, 0 where the ledger has none. */
  function Entry(L: Ledger, a: UserId, b: UserId): int {
    if a in L && b in L[a] then L[a][b] else 0
  }

  /** `ledger[a][b] += d` */
  function Bump(L: Ledger, a: UserId, b: UserId, d: int): Ledger {
    L[a := (if a in L then L[a] else map[])[b := Entry(L, a, b) + d]]
  }

  /** `ledger[a][b] += d` changes that cell by `d` and no other, and removes no cell. */
  lemma BumpEntries(L: Ledger, a: UserId, b: UserId, d: int)
    ensures Entry(Bump(L, a, b, d), a, b) == Entry(L, a, b) + d
    ensures forall x, y :: (x != a || y != b) ==> Entry(Bump(L, a, b, d), x, y) == Entry(L, x, y)
    ensures Grows(L, Bump(L, a, b, d))
    ensures a in L && b in L[a] ==> SameCells(L, Bump(L, a, b, d))
  {
  }

  /** A total, 0 where the totals have none. */
  function Tot(T: Totals, u: UserId): int {
    if u in T then T[u] else 0
  }

  /** `totals[u] += d` */
  function Credit(T: Totals, u: UserId, d: int): Totals {
    T[u := Tot(T, u) + d]
  }

  /** The row of `a` in a fresh ledger: a zero cell for every other member. */
  function ZeroRow(ids: seq<UserId>, a: UserId): map<UserId, int> {
    map b | b in ids && b != a :: 0
  }

  /** The ledger before any record is applied: a zero cell for every ordered pair of different members. */
  function InitialLedger(ids: seq<UserId>): (r: Ledger)
    ensures Shaped(r, ids)
    ensures forall a, b :: a in r && b in r[a] ==> r[a][b] == 0
  {
    map a | a in ids :: ZeroRow(ids, a)
  }

  /** `Object.fromEntries(ids.map((id) => [id, 0]))`: a zero total per member. */
  function InitialTotals(ids: seq<UserId>): (r: Totals)
    ensures TotalsOver(r, ids)
    ensures forall u :: u in r ==> r[u] == 0
  {
    map u | u in ids :: 0
  }

  function InitialBook(ids: seq<UserId>): GroupBook {
    GroupBook(InitialLedger(ids), InitialTotals(ids))
  }

  /** Whether the expense loop books a split: it is not the payer's own and not yet paid. */
  predicate Counted(payer: UserId, s: Split) {
    s.userId != payer && !s.paid
  }

  /**
   * One split of an expense paid by `payer`: a booked split adds its amount
   * to the debtor's cell towards the payer and, as written, to the totals of
   * both the payer and the debtor.
   */
  function BookSplit(B: GroupBook, payer: UserId, s: Split): GroupBook {
    if Counted(payer, s) then
      GroupBook(Bump(B.ledger, s.userId, payer, s.amount), Credit(Credit(B.totals, payer, s.amount), s.userId, s.amount))
    else B
  }

  function BookSplits(B: GroupBook, payer: UserId, splits: seq<Split>): GroupBook
    decreases |splits|
  {
    if splits == [] then B
    else BookSplit(BookSplits(B, payer, splits[..|splits| - 1]), payer, splits[|splits| - 1])
  }

  /** The tables after the expense loop. */
  function BookExpenses(B: GroupBook, exps: seq<Expense>): GroupBook
    decreases |exps|
  {
    if exps == [] then B
    else
      var e := exps[|exps| - 1];
      BookSplits(BookExpenses(B, exps[..|exps| - 1]), e.paidBy, e.splits)
  }

  /** One settlement: the payer's total gains the amount, the receiver's loses it, the payer's cell towards the receiver drops by it. */
  function BookSettlement(B: GroupBook, s: Settlement): GroupBook {
    GroupBook(Bump(B.ledger, s.paidBy, s.receivedBy, -s.amount),
              Credit(Credit(B.totals, s.paidBy, s.amount), s.receivedBy, -s.amount))
  }

  /** The tables after the settlement loop. */
  function BookSettlements(B: GroupBook, sts: seq<Settlement>): GroupBook
    decreases |sts|
  {
    if sts == [] then B
    else BookSettlement(BookSettlements(B, sts[..|sts| - 1]), sts[|sts| - 1])
  }

  /** `max(0, x - y)`: what is left of a debt `x` once the opposite debt `y` is offset. */
  function Net(x: int, y: int): int {
    if x - y > 0 then x - y else 0
  }

  /**
   * The cancellation pass: every pair of opposing cells is replaced by
   * their difference on the side that owes more, and 0 on the other.
   */
  function Netted(L: Ledger): (r: Ledger)
    ensures SameCells(L, r)
    ensures forall a, b :: a in r && b in r[a] && b in L && a in L[b] ==>
              && r[a][b] >= 0
              && (r[a][b] == 0 || r[b][a] == 0)
              && r[a][b] - r[b][a] == L[a][b] - L[b][a]
  {
    map a | a in L :: map b | b in L[a] :: if b in L && a in L[b] then Net(L[a][b], L[b][a]) else L[a][b]
  }

  /** The group's expenses (`by_group` index). */
  function GroupExpenses(expenses: seq<Expense>, groupId: GroupId): (r: seq<Expense>)
    ensures forall e :: e in r <==> e in expenses && e.groupId == Some(groupId)
  {
    Filter(expenses, (e: Expense) => e.groupId == Some(groupId))
  }

  /** The group's settlements (`by_group` index). */
  function GroupSettlements(settlements: seq<Settlement>, groupId: GroupId): (r: seq<Settlement>)
    ensures forall s :: s in r <==> s in settlements && s.groupId == Some(groupId)
  {
    Filter(settlements, (s: Settlement) => s.groupId == Some(groupId))
  }

  /** Every split the expense loop books names a debtor and a payer in the roster. */
  predicate ExpensesWithin(ids: seq<UserId>, exps: seq<Expense>) {
    forall e, s :: e in exps && s in e.splits && Counted(e.paidBy, s) ==> s.userId in ids && e.paidBy in ids
  }

  /** Every settlement is between two different members of the roster. */
  predicate SettlementsWithin(ids: seq<UserId>, sts: seq<Settlement>) {
    forall s :: s in sts ==> s.paidBy in ids && s.receivedBy in ids && s.paidBy != s.receivedBy
  }

  /** The tables of a group before the cancellation pass. */
  function RawBook(ids: seq<UserId>, exps: seq<Expense>, sts: seq<Settlement>): GroupBook {
    BookSettlements(BookExpenses(InitialBook(ids), exps), sts)
  }

  /** What `getGroupExpenses` computes for a roster and the group's records. */
  function Book(ids: seq<UserId>, exps: seq<Expense>, sts: seq<Settlement>): GroupBook {
    var raw := RawBook(ids, exps, sts);
    GroupBook(Netted(raw.ledger), raw.totals)
  }

  /**
   * What a lookup of the group needs for the ledger code to stay on defined
   * values: every member has a user row, and the group's records name only
   * members (the expense loop indexes `ledger[debtor]`, the settlement loop
   * `ledger[payer]`, and an unknown creditor would turn a cell into NaN).
   */
  predicate RecordsWithinRoster(me: UserId, groups: seq<Group>, users: seq<User>,
                                expenses: seq<Expense>, settlements: seq<Settlement>, groupId: GroupId) {
    var g := GetGroup(groups, groupId);
    g.Some? && IsMember(g.value, me) ==>
      && (forall m :: m in g.value.members ==> GetUser(users, m.userId).Some?)
      && ExpensesWithin(MemberIds(g.value), GroupExpenses(expenses, groupId))
      && SettlementsWithin(MemberIds(g.value), GroupSettlements(settlements, groupId))
  }

  /**
   * `getGroupExpenses`: "Group not found" for a missing group, "not a
   * member" for a caller outside its roster, else the netted ledger and the
   * totals over the group's expenses and settlements.
   */
  method GetGroupExpenses(me: UserId, groups: seq<Group>, users: seq<User>,
                          expenses: seq<Expense>, settlements: seq<Settlement>, groupId: GroupId)
    returns (r: Result<GroupBook>)
    requires RecordsWithinRoster(me, groups, users, expenses, settlements, groupId)
    ensures GetGroup(groups, groupId).None? ==> r == Err(GroupNotFound)
    ensures GetGroup(groups, groupId).Some? && !IsMember(GetGroup(groups, groupId).value, me) ==> r == Err(NotGroupMember)
    ensures r.Ok? <==> GetGroup(groups, groupId).Some? && IsMember(GetGroup(groups, groupId).value, me)
    ensures r.Ok? ==> r.value == Book(MemberIds(GetGroup(groups, groupId).value),
                                     GroupExpenses(expenses, groupId), GroupSettlements(settlements, groupId))
  {
    var group := GetGroup(groups, groupId);
    if group.None? {
      return Err(GroupNotFound);
    }
    var g := group.value;
    if !IsMember(g, me) {
      return Err(NotGroupMember);
    }
    var exps := GroupExpenses(expenses, groupId);
    var sts := GroupSettlements(settlements, groupId);
    // Every member resolves to a user row, whose id is the member's id.
    var ids := MemberIds(g);
    var ledger := NewLedger(ids);
    var book := GroupBook(ledger, InitialTotals(ids));
    WithinFits(book, ids, exps, sts);
    book := AccumulateExpenses(book, exps);
    ShapedSameCells(ledger, book.ledger, ids);
    WithinFits(book, ids, exps, sts);
    ghost var afterExpenses := book.ledger;
    book := ApplySettlements(book, sts);
    ShapedSameCells(afterExpenses, book.ledger, ids);
    var netted := CancelOpposing(book.ledger, ids);
    r := Ok(GroupBook(netted, book.totals));
  }

  /** The nested `ids.forEach` that creates the zero ledger. */
  method NewLedger(ids: seq<UserId>) returns (L: Ledger)
    ensures L == InitialLedger(ids)
  {
    L := map[];
    var i := 0;
    while i < |ids|
      invariant 0 <= i <= |ids|
      invariant L == map a | a in ids[..i] :: ZeroRow(ids, a)
    {
      var a := ids[i];
      var row := NewRow(ids, a);
      L := L[a := row];
      assert forall x :: x in ids[..i + 1] <==> x in ids[..i] || x == a by {
        assert ids[..i + 1] == ids[..i] + [a];
      }
      i := i + 1;
    }
    assert ids[..i] == ids;
  }

  /** The inner loop of the ledger set-up: a zero cell for every other member. */
  method NewRow(ids: seq<UserId>, a: UserId) returns (row: map<UserId, int>)
    ensures row == ZeroRow(ids, a)
  {
    row := map[];
    var j := 0;
    while j < |ids|
      invariant 0 <= j <= |ids|
      invariant row == map b | b in ids[..j] && b != a :: 0
    {
      if a != ids[j] {
        row := row[ids[j] := 0];
      }
      assert ids[..j + 1] == ids[..j] + [ids[j]];
      j := j + 1;
    }
    assert ids[..j] == ids;
  }

  /** Every ledger cell and total the expense loop touches exists. */
  ghost predicate ExpensesFit(B: GroupBook, exps: seq<Expense>) {
    forall e, s :: e in exps && s in e.splits && Counted(e.paidBy, s) ==>
      s.userId in B.ledger && e.paidBy in B.ledger[s.userId] && s.userId in B.totals && e.paidBy in B.totals
  }

  /** Every ledger cell and total the settlement loop touches exists. */
  ghost predicate SettlementsFit(B: GroupBook, sts: seq<Settlement>) {
    forall k :: 0 <= k < |sts| ==> SettlementFits(B, sts[k])
  }

  ghost predicate SettlementFits(B: GroupBook, s: Settlement) {
    s.paidBy in B.ledger && s.receivedBy in B.ledger[s.paidBy] && s.paidBy in B.totals && s.receivedBy in B.totals
  }

  lemma WithinFits(B: GroupBook, ids: seq<UserId>, exps: seq<Expense>, sts: seq<Settlement>)
    requires Shaped(B.ledger, ids) && TotalsOver(B.totals, ids)
    requires ExpensesWithin(ids, exps) && SettlementsWithin(ids, sts)
    ensures ExpensesFit(B, exps) && SettlementsFit(B, sts)
  {
    forall k | 0 <= k < |sts| ensures SettlementFits(B, sts[k]) {
      assert sts[k] in sts;
    }
  }

  /** `r` has the cells and totals of `B`. */
  ghost predicate SameTables(B: GroupBook, r: GroupBook) {
    SameCells(B.ledger, r.ledger) && r.totals.Keys == B.totals.Keys
  }

  /** The expense loop. */
  method AccumulateExpenses(B0: GroupBook, exps: seq<Expense>) returns (B: GroupBook)
    requires ExpensesFit(B0, exps)
    ensures B == BookExpenses(B0, exps) && SameTables(B0, B)
  {
    B := B0;
    var i := 0;
    while i < |exps|
      invariant 0 <= i <= |exps|
      invariant B == BookExpenses(B0, exps[..i]) && SameTables(B0, B)
    {
      ExpensesStep(B0, exps, i);
      B := AccumulateSplits(B0, B, exps[i], exps);
      i := i + 1;
    }
    assert exps[..i] == exps;
  }

  lemma ExpensesStep(B0: GroupBook, exps: seq<Expense>, i: nat)
    requires i < |exps|
    ensures BookExpenses(B0, exps[..i + 1]) == BookSplits(BookExpenses(B0, exps[..i]), exps[i].paidBy, exps[i].splits)
  {
    assert exps[..i + 1][..i] == exps[..i];
  }

  /** The inner loop over one expense's splits; a split of the payer or an already paid one is skipped. */
  method AccumulateSplits(ghost B0: GroupBook, B1: GroupBook, exp: Expense, ghost exps: seq<Expense>) returns (B: GroupBook)
    requires ExpensesFit(B0, exps) && exp in exps && SameTables(B0, B1)
    ensures B == BookSplits(B1, exp.paidBy, exp.splits) && SameTables(B0, B)
  {
    B := B1;
    var payer := exp.paidBy;
    var splits := exp.splits;
    var j := 0;
    while j < |splits|
      invariant 0 <= j <= |splits|
      invariant B == BookSplits(B1, payer, splits[..j]) && SameTables(B0, B)
    {
      var split := splits[j];
      assert splits[..j + 1][..j] == splits[..j];
      if split.userId != payer && !split.paid {
        assert split in exp.splits;
        B := AddSplit(B, payer, split);
      }
      j := j + 1;
    }
    assert splits[..j] == splits;
  }

  /** `totals[payer] += amt; totals[debtor] += amt; ledger[debtor][payer] += amt` */
  method AddSplit(B: GroupBook, payer: UserId, split: Split) returns (B': GroupBook)
    requires Counted(payer, split)
    requires split.userId in B.ledger && payer in B.ledger[split.userId] && split.userId in B.totals && payer in B.totals
    ensures B' == BookSplit(B, payer, split) && SameTables(B, B')
  {
    var debtor, amt := split.userId, split.amount;
    var totals := B.totals;
    totals := totals[payer := totals[payer] + amt];
    totals := totals[debtor := totals[debtor] + amt];
    var ledger := B.ledger;
    var row: map<UserId, int> := ledger[debtor];
    ledger := ledger[debtor := row[payer := row[payer] + amt]];
    B' := GroupBook(ledger, totals);
    BumpEntries(B.ledger, debtor, payer, amt);
  }

  /** The settlement loop. */
  method ApplySettlements(B0: GroupBook, sts: seq<Settlement>) returns (B: GroupBook)
    requires SettlementsFit(B0, sts)
    ensures B == BookSettlements(B0, sts) && SameTables(B0, B)
  {
    B := B0;
    var i := 0;
    while i < |sts|
      invariant 0 <= i <= |sts|
      invariant B == BookSettlements(B0, sts[..i]) && SameTables(B0, B)
    {
      var s := sts[i];
      assert SettlementFits(B0, s);
      assert sts[..i + 1][..i] == sts[..i];
      B := Settle(B, s);
      i := i + 1;
    }
    assert sts[..i] == sts;
  }

  /** `totals[payer] += amount; totals[receiver] -= amount; ledger[payer][receiver] -= amount` */
  method Settle(B: GroupBook, s: Settlement) returns (B': GroupBook)
    requires SettlementFits(B, s)
    ensures B' == BookSettlement(B, s) && SameTables(B, B')
  {
    var payer, receiver, amt := s.paidBy, s.receivedBy, s.amount;
    var totals := B.totals;
    totals := totals[payer := totals[payer] + amt];
    totals := totals[receiver := totals[receiver] - amt];
    var ledger := B.ledger;
    var row: map<UserId, int> := ledger[payer];
    ledger := ledger[payer := row[receiver := row[receiver] - amt]];
    B' := GroupBook(ledger, totals);
    BumpEntries(B.ledger, payer, receiver, -amt);
  }

  /** The pair `{a, b}` with its smaller id first. */
  function Pair(a: UserId, b: UserId): (UserId, UserId) {
    if a < b then (a, b) else (b, a)
  }

  /** A cell after the pairs in `done` have been netted. */
  function NetCell(L0: Ledger, done: set<(UserId, UserId)>, a: UserId, b: UserId): int {
    if Pair(a, b) in done then Net(Entry(L0, a, b), Entry(L0, b, a)) else Entry(L0, a, b)
  }

  /** The cancellation pass: for each pair `a < b` of roster ids, keep only the net debt. */
  method CancelOpposing(L0: Ledger, ids: seq<UserId>) returns (L: Ledger)
    requires Shaped(L0, ids)
    ensures L == Netted(L0)
  {
    L := L0;
    ghost var done: set<(UserId, UserId)> := {};
    var i := 0;
    while i < |ids|
      invariant 0 <= i <= |ids|
      invariant NettedAt(L0, L, done)
      invariant forall p, q :: 0 <= p < i && 0 <= q < |ids| && ids[p] < ids[q] ==> (ids[p], ids[q]) in done
    {
      L, done := CancelRow(L0, L, ids, done, i);
      i := i + 1;
    }
    AllPairsNetted(L0, L, ids, done);
  }

  /** `L` holds the cells of `L0`, netted for the pairs in `done` and untouched elsewhere. */
  ghost predicate NettedAt(L0: Ledger, L: Ledger, done: set<(UserId, UserId)>) {
    SameCells(L0, L) && forall a, b :: a in L && b in L[a] ==> L[a][b] == NetCell(L0, done, a, b)
  }

  /** The inner `ids.forEach` for `a = ids[i]`: nets every pair of `a` with a larger id. */
  method CancelRow(L0: Ledger, L: Ledger, ids: seq<UserId>, ghost done: set<(UserId, UserId)>, i: nat)
    returns (L': Ledger, ghost done': set<(UserId, UserId)>)
    requires Shaped(L0, ids) && i < |ids| && NettedAt(L0, L, done)
    ensures NettedAt(L0, L', done') && done <= done'
    ensures forall q :: 0 <= q < |ids| && ids[i] < ids[q] ==> (ids[i], ids[q]) in done'
  {
    L', done' := L, done;
    var j := 0;
    while j < |ids|
      invariant 0 <= j <= |ids|
      invariant NettedAt(L0, L', done') && done <= done'
      invariant forall q :: 0 <= q < j && ids[i] < ids[q] ==> (ids[i], ids[q]) in done'
    {
      var a, b := ids[i], ids[j];
      if a < b {
        RosterCells(L0, ids, i, j);
        L' := CancelPair(L0, L', done', a, b);
        done' := done' + {(a, b)};
      }
      j := j + 1;
    }
  }

  /** Two distinct roster members have both opposing cells in a shaped ledger. */
  lemma RosterCells(L0: Ledger, ids: seq<UserId>, i: nat, j: nat)
    requires Shaped(L0, ids) && i < |ids| && j < |ids| && ids[i] != ids[j]
    ensures ids[i] in L0 && ids[j] in L0[ids[i]] && ids[j] in L0 && ids[i] in L0[ids[j]]
  {
    assert ids[i] in ids && ids[j] in ids;
  }

  /** Once every pair of roster ids is in `done`, the ledger is the netted one. */
  lemma AllPairsNetted(L0: Ledger, L: Ledger, ids: seq<UserId>, done: set<(UserId, UserId)>)
    requires Shaped(L0, ids) && NettedAt(L0, L, done)
    requires forall p, q :: 0 <= p < |ids| && 0 <= q < |ids| && ids[p] < ids[q] ==> (ids[p], ids[q]) in done
    ensures L == Netted(L0)
  {
    var N := Netted(L0);
    forall a | a in L ensures a in N && L[a] == N[a] {
      RowNetted(L0, L, ids, done, a);
    }
    assert L.Keys == N.Keys;
  }

  lemma RowNetted(L0: Ledger, L: Ledger, ids: seq<UserId>, done: set<(UserId, UserId)>, a: UserId)
    requires Shaped(L0, ids) && NettedAt(L0, L, done)
    requires forall p, q :: 0 <= p < |ids| && 0 <= q < |ids| && ids[p] < ids[q] ==> (ids[p], ids[q]) in done
    requires a in L
    ensures a in Netted(L0) && L[a] == Netted(L0)[a]
  {
    var row := Netted(L0)[a];
    forall b | b in L[a] ensures b in row && L[a][b] == row[b] {
      CellNetted(L0, L, ids, done, a, b);
    }
    assert L[a].Keys == row.Keys;
  }

  /** Once every pair is done, each cell holds its netted value. */
  lemma CellNetted(L0: Ledger, L: Ledger, ids: seq<UserId>, done: set<(UserId, UserId)>, a: UserId, b: UserId)
    requires Shaped(L0, ids) && NettedAt(L0, L, done)
    requires forall p, q :: 0 <= p < |ids| && 0 <= q < |ids| && ids[p] < ids[q] ==> (ids[p], ids[q]) in done
    requires a in L && b in L[a]
    ensures a in Netted(L0) && b in Netted(L0)[a] && L[a][b] == Netted(L0)[a][b]
  {
    assert a in L0 && a in ids;
    assert b in L0[a] && b in ids && b != a;
    var p :| 0 <= p < |ids| && ids[p] == a;
    var q :| 0 <= q < |ids| && ids[q] == b;
    assert Pair(a, b) in done;
  }

  function Put(row: map<UserId, int>, k: UserId, v: int): map<UserId, int> {
    row[k := v]
  }

  /** One step of the pass: the cells `ledger[a][b]` and `ledger[b][a]` keep only their difference. */
  method CancelPair(L0: Ledger, L: Ledger, ghost done: set<(UserId, UserId)>, a: UserId, b: UserId)
    returns (L': Ledger)
    requires NettedAt(L0, L, done) && a in L0 && b in L0[a] && b in L0 && a in L0[b] && a < b
    ensures NettedAt(L0, L', done + {(a, b)})
  {
    var diff := L[a][b] - L[b][a];
    OpposingDifference(L0, L, done, a, b);
    var forward, backward := 0, 0;
    if diff > 0 {
      forward := diff;
    } else if diff < 0 {
      backward := -diff;
    }
    assert forward == Net(Entry(L0, a, b), Entry(L0, b, a));
    assert backward == Net(Entry(L0, b, a), Entry(L0, a, b));
    L' := L[a := Put(L[a], b, forward)][b := Put(L[b], a, backward)];
    NetPairCells(L0, L, done, a, b, L');
  }

  /** Netting a pair twice changes nothing, so the two opposing cells always differ by the raw difference. */
  lemma OpposingDifference(L0: Ledger, L: Ledger, done: set<(UserId, UserId)>, a: UserId, b: UserId)
    requires NettedAt(L0, L, done) && a in L0 && b in L0[a] && b in L0 && a in L0[b]
    ensures L[a][b] - L[b][a] == Entry(L0, a, b) - Entry(L0, b, a)
  {
    var x, y := Entry(L0, a, b), Entry(L0, b, a);
    assert L[a][b] == NetCell(L0, done, a, b) && L[b][a] == NetCell(L0, done, b, a);
    if Pair(a, b) in done {
      assert Pair(b, a) == Pair(a, b);
      assert L[a][b] == Net(x, y) && L[b][a] == Net(y, x);
    } else {
      assert Pair(b, a) !in done;
    }
  }

  /** Replacing the two opposing cells of `{a, b}` by their netted values nets the pair and nothing else. */
  lemma NetPairCells(L0: Ledger, L: Ledger, done: set<(UserId, UserId)>, a: UserId, b: UserId, L': Ledger)
    requires NettedAt(L0, L, done) && a in L0 && b in L0[a] && b in L0 && a in L0[b] && a < b
    requires L' == L[a := Put(L[a], b, Net(Entry(L0, a, b), Entry(L0, b, a)))][b := Put(L[b], a, Net(Entry(L0, b, a), Entry(L0, a, b)))]
    ensures NettedAt(L0, L', done + {(a, b)})
  {
    assert L'.Keys == L.Keys;
    forall x | x in L0 ensures L'[x].Keys == L0[x].Keys {
      if x != a && x != b {
        assert L'[x] == L[x];
      }
    }
    forall x, y | x in L' && y in L'[x] ensures L'[x][y] == NetCell(L0, done + {(a, b)}, x, y) {
      if x == a && y == b {
      } else if x == b && y == a {
      } else {
        assert L'[x][y] == L[x][y];
        assert Pair(x, y) != (a, b);
      }
    }
  }
}
