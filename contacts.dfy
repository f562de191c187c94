/**
 * The contacts page's data (`getAllContacts`) and group creation
 * (`createGroup`).
 */
module Contacts {

  import opened Records

  /**
   * The caller's personal expenses: the non-group expenses the caller paid,
   * then the non-group expenses someone else paid in which the caller holds
   * a split.
   */
  function PersonalExpenses(me: UserId, expenses: seq<Expense>): (r: seq<Expense>)
    ensures forall e :: e in r <==> e in expenses && e.groupId.None? && Involves(e, me)
  {
    Filter(expenses, (e: Expense) => e.paidBy == me && e.groupId.None?)
    + Filter(expenses, (e: Expense) => e.groupId.None? && e.paidBy != me && HasSplit(e.splits, me))
  }

  /** The split holders of `splits` other than `me`, in split order. */
  function SplitOthers(me: UserId, splits: seq<Split>): seq<UserId>
    decreases |splits|
  {
    if splits == [] then []
    else
      var last := splits[|splits| - 1];
      SplitOthers(me, splits[..|splits| - 1]) + (if last.userId != me then [last.userId] else [])
  }

  /** The ids an expense adds to the contact set: its payer, then its split holders, all but `me`. */
  function Touched(me: UserId, e: Expense): seq<UserId> {
    (if e.paidBy != me then [e.paidBy] else []) + SplitOthers(me, e.splits)
  }

  /** Every id the contact loop adds, in the order it adds them. */
  function Touches(me: UserId, exps: seq<Expense>): seq<UserId>
    decreases |exps|
  {
    if exps == [] then [] else Touches(me, exps[..|exps| - 1]) + Touched(me, exps[|exps| - 1])
  }

  lemma {:induction false} SplitOthersMembers(me: UserId, splits: seq<Split>)
    ensures forall x :: x in SplitOthers(me, splits) <==> x != me && HasSplit(splits, x)
    decreases |splits|
  {
    if splits != [] {
      var front := splits[..|splits| - 1];
      SplitOthersMembers(me, front);
      forall x ensures HasSplit(splits, x) <==> HasSplit(front, x) || splits[|splits| - 1].userId == x {
        if HasSplit(splits, x) {
          var i :| 0 <= i < |splits| && splits[i].userId == x;
          if i < |splits| - 1 { assert front[i].userId == x; }
        }
        if HasSplit(front, x) {
          var i :| 0 <= i < |front| && front[i].userId == x;
          assert splits[i].userId == x;
        }
      }
    }
  }

  lemma {:induction false} TouchesMembers(me: UserId, exps: seq<Expense>)
    ensures forall x :: x in Touches(me, exps) <==> x != me && exists e :: e in exps && Involves(e, x)
    decreases |exps|
  {
    if exps != [] {
      var front, last := exps[..|exps| - 1], exps[|exps| - 1];
      TouchesMembers(me, front);
      SplitOthersMembers(me, last.splits);
      assert forall e :: e in exps <==> e in front || e == last;
      forall x ensures x in Touches(me, exps) <==> x != me && exists e :: e in exps && Involves(e, x) {
        assert x in Touched(me, last) <==> x != me && Involves(last, x);
        if x != me && Involves(last, x) {
          assert exists e :: e in exps && Involves(e, x);
        }
        if x != me && exists e :: e in front && Involves(e, x) {
          var e :| e in front && Involves(e, x);
          assert e in exps;
        }
      }
    }
  }

  /** `contactIds.add(x)` on a set kept in insertion order. */
  function Add(ids: seq<UserId>, x: UserId): seq<UserId> {
    if x in ids then ids else ids + [x]
  }

  lemma DedupSnoc(s: seq<UserId>, x: UserId)
    ensures Dedup(s + [x]) == Add(Dedup(s), x)
  {
    assert (s + [x])[..|s|] == s;
  }

  /**
   * The contact-id set of `getAllContacts`, filled by the loop over the
   * personal expenses: each counterparty once, in first-seen order, never
   * the caller.
   */
  method ContactIds(me: UserId, personal: seq<Expense>) returns (ids: seq<UserId>)
    ensures ids == Dedup(Touches(me, personal))
    ensures Distinct(ids) && me !in ids
    ensures forall x :: x in ids <==> x != me && exists e :: e in personal && Involves(e, x)
  {
    ids := [];
    var i := 0;
    while i < |personal|
      invariant 0 <= i <= |personal|
      invariant ids == Dedup(Touches(me, personal[..i]))
    {
      assert personal[..i + 1][..i] == personal[..i] && personal[..i + 1][i] == personal[i];
      ids := AddExpenseContacts(me, ids, Touches(me, personal[..i]), personal[i]);
      i := i + 1;
    }
    assert personal[..i] == personal;
    TouchesMembers(me, personal);
  }

  /** One step of the `personalExpenses.forEach`: the payer, then the split holders. */
  method AddExpenseContacts(me: UserId, ids: seq<UserId>, ghost before: seq<UserId>, exp: Expense)
    returns (ids': seq<UserId>)
    requires ids == Dedup(before)
    ensures ids' == Dedup(before + Touched(me, exp))
  {
    ghost var head: seq<UserId> := if exp.paidBy != me then [exp.paidBy] else [];
    ids' := ids;
    if exp.paidBy != me {
      DedupSnoc(before, exp.paidBy);
      ids' := Add(ids', exp.paidBy);
    } else {
      assert before + head == before;
    }
    ids' := AddSplitHolders(me, ids', before + head, exp.splits);
    TouchedAfter(me, exp, before, head);
  }

  lemma TouchedAfter(me: UserId, exp: Expense, before: seq<UserId>, head: seq<UserId>)
    requires head == if exp.paidBy != me then [exp.paidBy] else []
    ensures before + Touched(me, exp) == (before + head) + SplitOthers(me, exp.splits)
  {
  }

  /** The inner `exp.splits.forEach`: adds every split holder other than `me`. */
  method AddSplitHolders(me: UserId, ids: seq<UserId>, ghost added: seq<UserId>, splits: seq<Split>)
    returns (ids': seq<UserId>)
    requires ids == Dedup(added)
    ensures ids' == Dedup(added + SplitOthers(me, splits))
  {
    ids' := ids;
    var j := 0;
    assert added + SplitOthers(me, splits[..0]) == added;
    while j < |splits|
      invariant 0 <= j <= |splits|
      invariant ids' == Dedup(added + SplitOthers(me, splits[..j]))
    {
      var s := splits[j];
      ghost var done := SplitOthers(me, splits[..j]);
      assert splits[..j + 1][..j] == splits[..j] && splits[..j + 1][j] == s;
      if s.userId != me {
        assert SplitOthers(me, splits[..j + 1]) == done + [s.userId];
        assert added + (done + [s.userId]) == (added + done) + [s.userId];
        DedupSnoc(added + done, s.userId);
        ids' := Add(ids', s.userId);
      } else {
        assert SplitOthers(me, splits[..j + 1]) == done;
      }
      j := j + 1;
    }
    assert splits[..j] == splits;
  }

  datatype ContactUser = ContactUser(id: UserId, name: string, email: string, imageUrl: Option<string>)

  /**
   * The contact users: for each contact id, its user row when that row
   * exists and carries both a name and an email; other ids are dropped.
   */
  function ContactUsers(ids: seq<UserId>, users: seq<User>): (r: seq<ContactUser>)
    ensures |r| <= |ids|
    ensures forall c :: c in r ==> c.id in ids && exists u :: u in users && u.id == c.id
                                                   && u.name == Some(c.name) && u.email == Some(c.email)
    ensures forall c :: c in r ==> GetUser(users, c.id).Some? && FromRow(c, GetUser(users, c.id).value)
    ensures forall x :: (x in ids && GetUser(users, x).Some? && GetUser(users, x).value.name.Some?
                          && GetUser(users, x).value.email.Some?) ==> exists c :: c in r && c.id == x
    decreases |ids|
  {
    if ids == [] then []
    else
      var front := ContactUsers(ids[..|ids| - 1], users);
      var x := ids[|ids| - 1];
      assert forall y :: y in ids <==> y in ids[..|ids| - 1] || y == x;
      var u := GetUser(users, x);
      if u.Some? && u.value.name.Some? && u.value.email.Some? then
        front + [ContactUser(x, u.value.name.value, u.value.email.value, u.value.imageUrl)]
      else front
  }

  /** `c` carries the name, email and image of the user row `u`. */
  predicate FromRow(c: ContactUser, u: User) {
    u.id == c.id && u.name == Some(c.name) && u.email == Some(c.email) && u.imageUrl == c.imageUrl
  }

  datatype Contacts = Contacts(users: seq<ContactUser>, groups: seq<GroupSummary>)

  /** `getAllContacts` */
  method AllContacts(me: UserId, expenses: seq<Expense>, users: seq<User>, groups: seq<Group>) returns (r: Contacts)
    ensures forall c :: c in r.users ==> c.id != me
                                         && exists e :: e in expenses && e.groupId.None? && Involves(e, me) && Involves(e, c.id)
    ensures forall c :: c in r.users ==> GetUser(users, c.id).Some? && FromRow(c, GetUser(users, c.id).value)
    ensures forall x :: && x != me
                        && (exists e :: e in expenses && e.groupId.None? && Involves(e, me) && Involves(e, x))
                        && GetUser(users, x).Some? && GetUser(users, x).value.name.Some? && GetUser(users, x).value.email.Some?
                        ==> exists c :: c in r.users && c.id == x
    ensures forall i, j :: 0 <= i < j < |r.users| ==> r.users[i].id != r.users[j].id
    ensures r.groups == GroupSummaries(groups, me)
  {
    var personal := PersonalExpenses(me, expenses);
    var ids := ContactIds(me, personal);
    r := Contacts(ContactUsers(ids, users), GroupSummaries(groups, me));
    ContactUsersDistinct(ids, users);
  }

  lemma {:induction false} ContactUsersDistinct(ids: seq<UserId>, users: seq<User>)
    requires Distinct(ids)
    ensures forall i, j :: 0 <= i < j < |ContactUsers(ids, users)| ==>
              ContactUsers(ids, users)[i].id != ContactUsers(ids, users)[j].id
    decreases |ids|
  {
    if ids != [] {
      var front := ids[..|ids| - 1];
      ContactUsersDistinct(front, users);
      assert ids[|ids| - 1] !in front;
    }
  }

  /** The characters JavaScript's `String.prototype.trim` removes: WhiteSpace and LineTerminator. */
  predicate IsTrimmed(c: char) {
    c == '\t' || c == '\U{000B}' || c == '\U{000C}' || c == ' ' || c == '\U{00A0}' || c == '\U{FEFF}'
    || c == '\U{1680}' || ('\U{2000}' <= c <= '\U{200A}') || c == '\U{202F}' || c == '\U{205F}'
    || c == '\U{3000}' || c == '\n' || c == '\r' || c == '\U{2028}' || c == '\U{2029}'
  }

  function TrimStart(s: string): (r: string)
    ensures |r| <= |s| && r == s[|s| - |r|..]
    ensures r != [] ==> !IsTrimmed(r[0])
    ensures forall k :: 0 <= k < |s| - |r| ==> IsTrimmed(s[k])
  {
    if s != [] && IsTrimmed(s[0]) then TrimStart(s[1..]) else s
  }

  function TrimEnd(s: string): (r: string)
    ensures |r| <= |s| && r == s[..|r|]
    ensures r != [] ==> !IsTrimmed(r[|r| - 1])
    ensures forall k :: |r| <= k < |s| ==> IsTrimmed(s[k])
  {
    if s != [] && IsTrimmed(s[|s| - 1]) then TrimEnd(s[..|s| - 1]) else s
  }

  /** `r` is `s` with `a` leading and some trailing trimmable characters removed. */
  predicate TrimmedAt(s: string, r: string, a: int) {
    && 0 <= a && a + |r| <= |s| && r == s[a..a + |r|]
    && (forall k :: 0 <= k < a ==> IsTrimmed(s[k]))
    && (forall k :: a + |r| <= k < |s| ==> IsTrimmed(s[k]))
  }

  /** `s.trim()` */
  function Trim(s: string): (r: string)
    ensures r == [] <==> forall k :: 0 <= k < |s| ==> IsTrimmed(s[k])
    ensures r != [] ==> !IsTrimmed(r[0]) && !IsTrimmed(r[|r| - 1])
    ensures exists a :: TrimmedAt(s, r, a)
  {
    var t := TrimStart(s);
    var r := TrimEnd(t);
    assert TrimmedAt(s, r, |s| - |t|);
    r
  }

  lemma TrimIdempotent(s: string)
    ensures Trim(Trim(s)) == Trim(s)
  {
  }

  datatype CreateGroupArgs = CreateGroupArgs(name: string, description: Option<string>, members: seq<UserId>)

  /** The roster entry `createGroup` writes for `id`. */
  function RosterEntry(me: UserId, id: UserId, now: int): Membership {
    Membership(id, if id == me then Admin else Member, now)
  }

  /** The member ids of a new group: the requested ids once each, then the creator if absent. */
  function UniqueMembers(me: UserId, members: seq<UserId>): (r: seq<UserId>)
    ensures Distinct(r) && me in r
    ensures forall x :: x in r <==> x in members || x == me
  {
    Dedup(members + [me])
  }

  /** The first id, in set order, that has no user row. */
  function FirstMissing(ids: seq<UserId>, users: seq<User>): (r: Option<UserId>)
    ensures r.None? <==> forall x :: x in ids ==> GetUser(users, x).Some?
    ensures r.Some? ==> r.value in ids && GetUser(users, r.value).None?
  {
    if ids == [] then None
    else if GetUser(users, ids[0]).None? then
      assert ids[0] in ids;
      Some(ids[0])
    else
      var r := FirstMissing(ids[1..], users);
      assert forall x :: x in ids <==> x == ids[0] || x in ids[1..];
      assert r.Some? ==> r.value in ids;
      r
  }

  /**
   * `createGroup`: rejects a name that is blank after trimming, then any
   * member id without a user row (the first one in set order), else returns
   * the inserted group.
   */
  method CreateGroup(me: UserId, args: CreateGroupArgs, users: seq<User>, newId: GroupId, now: int)
    returns (r: Result<Group>)
    ensures Trim(args.name) == [] ==> r == Err(EmptyGroupName)
    ensures Trim(args.name) != [] && FirstMissing(UniqueMembers(me, args.members), users).Some? ==>
              r == Err(MemberNotFound(FirstMissing(UniqueMembers(me, args.members), users).value))
    ensures r.Ok? <==> Trim(args.name) != [] && forall x :: x in args.members + [me] ==> GetUser(users, x).Some?
    ensures r.Ok? ==>
              var g := r.value;
              && g.id == newId && g.createdBy == me
              && g.name == Trim(args.name)
              && g.description == (if args.description.Some? then Trim(args.description.value) else "")
              && MemberIds(g) == UniqueMembers(me, args.members)
              && (forall m :: m in g.members ==> m.joinedAt == now && (m.role == Admin <==> m.userId == me))
  {
    if Trim(args.name) == [] {
      return Err(EmptyGroupName);
    }
    var unique := UniqueMembers(me, args.members);
    MembersFound(me, args.members, users);
    var i := 0;
    while i < |unique|
      invariant 0 <= i <= |unique|
      invariant forall k :: 0 <= k < i ==> GetUser(users, unique[k]).Some?
    {
      if GetUser(users, unique[i]).None? {
        FirstMissingIsFirst(unique, users, i);
        return Err(MemberNotFound(unique[i]));
      }
      i := i + 1;
    }
    var description := if args.description.Some? then Trim(args.description.value) else "";
    r := Ok(Group(newId, Trim(args.name), description, me, Roster(me, unique, now)));
  }

  /** `[...uniqueMembers].map((id) => ({ userId: id, role: ..., joinedAt: now }))` */
  function Roster(me: UserId, ids: seq<UserId>, now: int): (r: seq<Membership>)
    ensures |r| == |ids|
    ensures forall k :: 0 <= k < |r| ==> r[k] == RosterEntry(me, ids[k], now)
    ensures MemberIds(Group(0, "", "", me, r)) == ids
    ensures forall m :: m in r ==> m.joinedAt == now && (m.role == Admin <==> m.userId == me)
  {
    var r := seq(|ids|, k requires 0 <= k < |ids| => RosterEntry(me, ids[k], now));
    assert MemberIds(Group(0, "", "", me, r)) == ids;
    r
  }

  /** Every id of the deduplicated set has a row exactly when every requested id and the caller do. */
  lemma MembersFound(me: UserId, members: seq<UserId>, users: seq<User>)
    ensures FirstMissing(UniqueMembers(me, members), users).None? <==> forall x :: x in members + [me] ==> GetUser(users, x).Some?
  {
    assert forall x :: x in members + [me] <==> x in members || x == me;
  }

  lemma FirstMissingIsFirst(ids: seq<UserId>, users: seq<User>, i: nat)
    requires i < |ids| && GetUser(users, ids[i]).None?
    requires forall k :: 0 <= k < i ==> GetUser(users, ids[k]).Some?
    ensures FirstMissing(ids, users) == Some(ids[i])
  {
    if i > 0 {
      FirstMissingIsFirst(ids[1..], users, i - 1);
    }
  }

  /** A created group's roster holds the creator as its one admin, and no id twice. */
  lemma CreatedGroupHasOneAdmin(me: UserId, args: CreateGroupArgs, users: seq<User>, newId: GroupId, now: int, g: Group)
    requires Trim(args.name) != [] && FirstMissing(UniqueMembers(me, args.members), users).None?
    requires MemberIds(g) == UniqueMembers(me, args.members)
    requires forall m :: m in g.members ==> (m.role == Admin <==> m.userId == me)
    ensures exists k :: 0 <= k < |g.members| && g.members[k].userId == me && g.members[k].role == Admin
    ensures forall k, l :: 0 <= k < l < |g.members| ==> g.members[k].userId != g.members[l].userId
    ensures forall k, l :: (0 <= k < |g.members| && 0 <= l < |g.members| && g.members[k].role == Admin
                           && g.members[l].role == Admin) ==> k == l
  {
    var ids := MemberIds(g);
    assert me in ids;
    var k :| 0 <= k < |ids| && ids[k] == me;
    assert g.members[k] in g.members;
    forall k, l | 0 <= k < |g.members| && 0 <= l < |g.members| && g.members[k].role == Admin && g.members[l].role == Admin
      ensures k == l
    {
      assert g.members[k] in g.members && g.members[l] in g.members;
      assert ids[k] == me == ids[l];
    }
  }
}
