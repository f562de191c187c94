/**
 * The records of the expense-sharing store (users, groups, expenses with
 * their splits, settlements) and the small lookups every server function
 * shares: `db.get` by id, JavaScript's `some`/`find` over splits and
 * memberships, and the insertion order of a JavaScript `Set`.
 *
 * Money is held in integer minor units; ids are natural numbers.
 */
module Records {

  type UserId = nat
  type GroupId = nat
  type ExpenseId = nat

  datatype Option<+T> = None | Some(value: T)

  /** The errors the server functions throw, one per distinct message. */
  datatype Error =
    | NotAuthenticated              // no identity in the auth context
    | UserNotFound                  // a looked-up user row is missing
    | GroupNotFound                 // a looked-up group row is missing
    | NotGroupMember                // the caller is not in the group's roster
    | GroupNotFoundOrNotMember      // selection among the caller's own groups failed
    | AmountNotPositive
    | SamePayerAndReceiver
    | NotSettlementParty            // the caller is neither payer nor receiver
    | PartiesNotGroupMembers
    | InvalidEntityType
    | EmptyGroupName
    | MemberNotFound(id: UserId)    // a member id of a new group has no user row
    | DuplicateToken                // `unique()` found more than one row

  datatype Result<+T> = Ok(value: T) | Err(error: Error)

  datatype Split = Split(userId: UserId, amount: int, paid: bool)

  datatype Expense = Expense(
    description: string,
    amount: int,
    category: string,
    date: int,
    paidBy: UserId,
    groupId: Option<GroupId>,
    splits: seq<Split>,
    createdBy: UserId)

  datatype Settlement = Settlement(
    amount: int,
    note: Option<string>,
    date: int,
    paidBy: UserId,
    receivedBy: UserId,
    groupId: Option<GroupId>,
    relatedExpenseIds: Option<seq<ExpenseId>>,
    createdBy: UserId)

  /** A running pair of amounts: what a counterpart owes the caller, and what the caller owes it. */
  datatype Tally = Tally(owed: int, owing: int)

  datatype Role = Admin | Member

  datatype Membership = Membership(userId: UserId, role: Role, joinedAt: int)

  datatype Group = Group(
    id: GroupId,
    name: string,
    description: string,
    createdBy: UserId,
    members: seq<Membership>)

  datatype User = User(
    id: UserId,
    name: Option<string>,
    email: Option<string>,
    imageUrl: Option<string>,
    tokenIdentifier: string)

  /** `splits.some((s) => s.userId === u)` */
  predicate HasSplit(splits: seq<Split>, u: UserId) {
    exists i :: 0 <= i < |splits| && splits[i].userId == u
  }

  /** `splits.find((s) => s.userId === u)`: the first split of `u`. */
  function FindSplit(splits: seq<Split>, u: UserId): (r: Option<Split>)
    ensures r.Some? <==> HasSplit(splits, u)
    ensures r.Some? ==> exists i :: 0 <= i < |splits| && splits[i] == r.value && r.value.userId == u
                                      && forall j :: 0 <= j < i ==> splits[j].userId != u
  {
    if splits == [] then None
    else if splits[0].userId == u then Some(splits[0])
    else
      var r := FindSplit(splits[1..], u);
      if r.Some? then
        var i :| 0 <= i < |splits[1..]| && splits[1..][i] == r.value && r.value.userId == u
                  && forall j :: 0 <= j < i ==> splits[1..][j].userId != u;
        assert splits[i + 1] == r.value;
        r
      else
        assert forall i :: 0 < i < |splits| ==> splits[i] == splits[1..][i - 1];
        r
  }

  /** `splits.find((s) => s.userId === u && !s.paid)`: the first unpaid split of `u`. */
  function FindUnpaidSplit(splits: seq<Split>, u: UserId): (r: Option<Split>)
    ensures r.Some? <==> exists i :: 0 <= i < |splits| && splits[i].userId == u && !splits[i].paid
    ensures r.Some? ==> r.value in splits && r.value.userId == u && !r.value.paid
    ensures r.Some? ==> exists i :: 0 <= i < |splits| && splits[i] == r.value
                                      && forall j :: 0 <= j < i ==> splits[j].userId != u || splits[j].paid
  {
    if splits == [] then None
    else if splits[0].userId == u && !splits[0].paid then Some(splits[0])
    else
      var r := FindUnpaidSplit(splits[1..], u);
      assert forall i :: 0 < i < |splits| ==> splits[i] == splits[1..][i - 1];
      assert r.Some? ==> exists i :: 0 <= i < |splits| && splits[i] == r.value
                                       && forall j :: 0 <= j < i ==> splits[j].userId != u || splits[j].paid
      by {
        if r.Some? {
          var i :| 0 <= i < |splits[1..]| && splits[1..][i] == r.value
                   && forall j :: 0 <= j < i ==> splits[1..][j].userId != u || splits[1..][j].paid;
          assert splits[i + 1] == r.value;
        }
      }
      r
  }

  /** The amount of an optional split, 0 when there is none (`if (split) x += split.amount`). */
  function AmountOf(s: Option<Split>): int {
    if s.Some? then s.value.amount else 0
  }

  /** An expense in which `u` is the payer or holds a split. */
  predicate Involves(e: Expense, u: UserId) {
    e.paidBy == u || HasSplit(e.splits, u)
  }

  /** `group.members.some((m) => m.userId === u)` */
  predicate IsMember(g: Group, u: UserId) {
    exists i :: 0 <= i < |g.members| && g.members[i].userId == u
  }

  /** The groups whose roster contains `u`, in table order. */
  function GroupsOf(groups: seq<Group>, u: UserId): (r: seq<Group>)
    ensures |r| <= |groups|
    ensures forall g :: g in r <==> g in groups && IsMember(g, u)
  {
    Filter(groups, (g: Group) => IsMember(g, u))
  }

  datatype GroupSummary = GroupSummary(id: GroupId, name: string, description: string, memberCount: nat)

  function Summary(g: Group): GroupSummary {
    GroupSummary(g.id, g.name, g.description, |g.members|)
  }

  /**
   * The summaries of the groups `u` belongs to: exactly one summary per such
   * group, in table order, each counting the group's roster.
   */
  function GroupSummaries(groups: seq<Group>, u: UserId): (r: seq<GroupSummary>)
    ensures |r| == |GroupsOf(groups, u)|
    ensures forall i :: 0 <= i < |r| ==> r[i] == Summary(GroupsOf(groups, u)[i])
    ensures forall s :: s in r <==> exists g :: g in groups && IsMember(g, u) && s == Summary(g)
  {
    var mine := GroupsOf(groups, u);
    var r := seq(|mine|, i requires 0 <= i < |mine| => Summary(mine[i]));
    assert forall g :: g in mine ==> Summary(g) in r by {
      forall g | g in mine ensures Summary(g) in r {
        var i :| 0 <= i < |mine| && mine[i] == g;
        assert r[i] == Summary(g);
      }
    }
    r
  }

  /** The user ids of a group's roster, in roster order. */
  function MemberIds(g: Group): (r: seq<UserId>)
    ensures |r| == |g.members|
    ensures forall i :: 0 <= i < |r| ==> r[i] == g.members[i].userId
  {
    seq(|g.members|, i requires 0 <= i < |g.members| => g.members[i].userId)
  }

  lemma MemberIdsIsMember(g: Group, u: UserId)
    ensures u in MemberIds(g) <==> IsMember(g, u)
  {
    if IsMember(g, u) {
      var i :| 0 <= i < |g.members| && g.members[i].userId == u;
      assert MemberIds(g)[i] == u;
    }
  }

  /** `ctx.db.get(id)` on the users table. */
  function GetUser(users: seq<User>, id: UserId): (r: Option<User>)
    ensures r.Some? <==> exists i :: 0 <= i < |users| && users[i].id == id
    ensures r.Some? ==> r.value in users && r.value.id == id
  {
    if users == [] then None
    else if users[0].id == id then Some(users[0])
    else
      assert forall i :: 0 < i < |users| ==> users[i] == users[1..][i - 1];
      GetUser(users[1..], id)
  }

  /** `ctx.db.get(id)` on the groups table. */
  function GetGroup(groups: seq<Group>, id: GroupId): (r: Option<Group>)
    ensures r.Some? <==> exists i :: 0 <= i < |groups| && groups[i].id == id
    ensures r.Some? ==> r.value in groups && r.value.id == id
  {
    if groups == [] then None
    else if groups[0].id == id then Some(groups[0])
    else
      assert forall i :: 0 < i < |groups| ==> groups[i] == groups[1..][i - 1];
      GetGroup(groups[1..], id)
  }

  predicate Distinct<T(==)>(s: seq<T>) {
    forall i, j :: 0 <= i < j < |s| ==> s[i] != s[j]
  }

  /**
   * The iteration order of `new Set(s)`: each element once, at the position
   * of its first occurrence.
   */
  function Dedup<T(==,!new)>(s: seq<T>): (r: seq<T>)
    ensures Distinct(r)
    ensures forall x :: x in r <==> x in s
    ensures |r| <= |s|
    decreases |s|
  {
    if s == [] then []
    else
      var front := Dedup(s[..|s| - 1]);
      var last := s[|s| - 1];
      assert s == s[..|s| - 1] + [last];
      if last in front then front else front + [last]
  }

  /** `s.filter(p)`: the elements satisfying `p`, in their original order. */
  function Filter<T(!new)>(s: seq<T>, p: T -> bool): (r: seq<T>)
    ensures |r| <= |s|
    ensures forall x :: x in r <==> x in s && p(x)
    decreases |s|
  {
    if s == [] then []
    else
      var front := Filter(s[..|s| - 1], p);
      assert s == s[..|s| - 1] + [s[|s| - 1]];
      if p(s[|s| - 1]) then front + [s[|s| - 1]] else front
  }

  /** Without its last element, a duplicate-free sequence stays duplicate-free and no longer holds that element. */
  lemma DistinctFront<T>(s: seq<T>)
    requires Distinct(s) && s != []
    ensures Distinct(s[..|s| - 1]) && s[|s| - 1] !in s[..|s| - 1]
  {
  }

  /** The expenses dated at or after `start`: a `gte` range on the `by_date` index. */
  function DatedFrom(expenses: seq<Expense>, start: int): (r: seq<Expense>)
    ensures forall e :: e in r <==> e in expenses && e.date >= start
  {
    Filter(expenses, (e: Expense) => e.date >= start)
  }

  /** `(s.concat(t)).filter(p)` is `s.filter(p).concat(t.filter(p))`. */
  lemma {:induction false} FilterConcat<T(!new)>(s: seq<T>, t: seq<T>, p: T -> bool)
    ensures Filter(s + t, p) == Filter(s, p) + Filter(t, p)
    decreases |t|
  {
    if t == [] {
      assert s + t == s;
    } else {
      var front, last := t[..|t| - 1], t[|t| - 1];
      var st := s + t;
      assert st[..|st| - 1] == s + front;
      assert st[|st| - 1] == last;
      FilterConcat(s, front, p);
      if p(last) {
        calc {
          Filter(st, p);
          Filter(s + front, p) + [last];
          Filter(s, p) + Filter(front, p) + [last];
          Filter(s, p) + (Filter(front, p) + [last]);
        }
      }
    }
  }

  lemma {:induction false} FilterNone<T(!new)>(s: seq<T>, p: T -> bool)
    requires forall x :: x in s ==> !p(x)
    ensures Filter(s, p) == []
    decreases |s|
  {
    if s != [] {
      assert s[|s| - 1] in s;
      FilterNone(s[..|s| - 1], p);
    }
  }
}
