/**
 * The users table: `store` (register or refresh the signed-in identity),
 * `getCurrentUser` and `searchUsers`.
 */
module Users {

  import opened Records

  /** What the authentication provider says about the signed-in person. */
  datatype Identity = Identity(
    tokenIdentifier: string,
    name: Option<string>,
    email: Option<string>,
    pictureUrl: Option<string>)

  /** Rows whose ids are pairwise distinct. */
  predicate DistinctIds(rows: seq<User>) {
    forall i, j :: 0 <= i < j < |rows| ==> rows[i].id != rows[j].id
  }

  /** Rows whose token identifiers are pairwise distinct. */
  predicate DistinctTokens(rows: seq<User>) {
    forall i, j :: 0 <= i < j < |rows| ==> rows[i].tokenIdentifier != rows[j].tokenIdentifier
  }

  /** The rows the `by_token` index returns for `token`, in table order. */
  function WithToken(rows: seq<User>, token: string): (r: seq<User>)
    ensures forall u :: u in r <==> u in rows && u.tokenIdentifier == token
  {
    Filter(rows, (u: User) => u.tokenIdentifier == token)
  }

  /** With one row per token, the `by_token` index returns at most one row. */
  lemma {:induction false} AtMostOneWithToken(rows: seq<User>, token: string)
    requires DistinctTokens(rows)
    ensures |WithToken(rows, token)| <= 1
    decreases |rows|
  {
    if rows != [] {
      var p := (u: User) => u.tokenIdentifier == token;
      var front, last := rows[..|rows| - 1], rows[|rows| - 1];
      AtMostOneWithToken(front, token);
      if p(last) {
        forall u | u in front ensures !p(u) {
          var k :| 0 <= k < |front| && front[k] == u;
          assert rows[k] == u;
        }
        FilterNone(front, p);
      }
    }
  }

  /** The index of the row holding `token`, when the tokens are distinct. */
  function TokenIndex(rows: seq<User>, token: string): (i: nat)
    requires exists k :: 0 <= k < |rows| && rows[k].tokenIdentifier == token
    ensures i < |rows| && rows[i].tokenIdentifier == token
    ensures forall k :: 0 <= k < i ==> rows[k].tokenIdentifier != token
  {
    if rows[0].tokenIdentifier == token then 0
    else
      assert forall k :: 0 < k < |rows| ==> rows[k] == rows[1..][k - 1];
      1 + TokenIndex(rows[1..], token)
  }

  /** An id that no row of the table uses: one more than the largest. */
  function FreshId(rows: seq<User>): (id: UserId)
    ensures forall u :: u in rows ==> u.id < id
    decreases |rows|
  {
    if rows == [] then 0
    else
      var rest := FreshId(rows[..|rows| - 1]);
      assert forall u :: u in rows ==> u in rows[..|rows| - 1] || u == rows[|rows| - 1];
      if rows[|rows| - 1].id + 1 > rest then rows[|rows| - 1].id + 1 else rest
  }

  /** The row `store` inserts for a new identity. */
  function NewUser(id: UserId, identity: Identity): User {
    User(id,
         Some(if identity.name.Some? then identity.name.value else "Anonymous"),
         Some(if identity.email.Some? then identity.email.value else ""),
         identity.pictureUrl,
         identity.tokenIdentifier)
  }

  /**
   * `store`: what it returns and the users table afterwards. A missing
   * identity fails; a token matched by more than one row fails as `unique()`
   * does; a known token refreshes the row's name when it differs and returns
   * its id; a new token appends a row with a fresh id.
   */
  function StoreSpec(rows: seq<User>, identity: Option<Identity>): (out: (Result<UserId>, seq<User>))
    ensures identity.None? ==> out == (Err(NotAuthenticated), rows)
    ensures out.0.Ok? ==> exists k :: 0 <= k < |out.1| && out.1[k].id == out.0.value
                                      && out.1[k].tokenIdentifier == identity.value.tokenIdentifier
  {
    if identity.None? then (Err(NotAuthenticated), rows)
    else
      var token := identity.value.tokenIdentifier;
      var matches := WithToken(rows, token);
      if |matches| > 1 then (Err(DuplicateToken), rows)
      else if |matches| == 1 then
        assert matches[0] in rows;
        var i := TokenIndex(rows, token);
        var row := rows[i];
        var rows' := if row.name != identity.value.name then rows[i := row.(name := identity.value.name)] else rows;
        assert rows'[i].id == row.id;
        (Ok(row.id), rows')
      else
        var u := NewUser(FreshId(rows), identity.value);
        var rows' := rows + [u];
        assert rows'[|rows|] == u;
        (Ok(u.id), rows')
  }

  /** On a table with one row per token, `store` keeps ids and tokens unique. */
  lemma StorePreservesUniqueness(rows: seq<User>, identity: Option<Identity>)
    requires DistinctIds(rows) && DistinctTokens(rows)
    ensures DistinctIds(StoreSpec(rows, identity).1) && DistinctTokens(StoreSpec(rows, identity).1)
    ensures StoreSpec(rows, identity).0 != Err(DuplicateToken)
  {
    if identity.Some? {
      AtMostOneWithToken(rows, identity.value.tokenIdentifier);
    }
  }

  /** `store` on a token the table holds at row `i`: that row's id, and its name set to the identity's. */
  lemma StoreOnKnownToken(rows: seq<User>, identity: Identity, i: nat)
    requires DistinctTokens(rows)
    requires i < |rows| && rows[i].tokenIdentifier == identity.tokenIdentifier
    ensures StoreSpec(rows, Some(identity)) == (Ok(rows[i].id), rows[i := rows[i].(name := identity.name)])
  {
    var token := identity.tokenIdentifier;
    AtMostOneWithToken(rows, token);
    assert rows[i] in WithToken(rows, token);
    assert |WithToken(rows, token)| == 1;
    assert TokenIndex(rows, token) == i;
    assert rows[i].(name := rows[i].name) == rows[i];
    var out := StoreSpec(rows, Some(identity));
    assert out.0 == Ok(rows[i].id);
    assert out.1 == rows[i := rows[i].(name := identity.name)];
  }

  /** `store` on a token the table does not hold: a new row with a fresh id is appended. */
  lemma StoreOnNewToken(rows: seq<User>, identity: Identity)
    requires forall u :: u in rows ==> u.tokenIdentifier != identity.tokenIdentifier
    ensures StoreSpec(rows, Some(identity)) == (Ok(FreshId(rows)), rows + [NewUser(FreshId(rows), identity)])
  {
    FilterNone(rows, (u: User) => u.tokenIdentifier == identity.tokenIdentifier);
  }

  /**
   * A second `store` of the same identity returns the same id and inserts no
   * row. The table itself is left as the first call left it only when the
   * identity carries a name: a nameless identity is inserted as "Anonymous",
   * and the second call then patches that name back to the identity's
   * missing name (see `StoreNamelessTwice`).
   */
  lemma StoreIdempotent(rows: seq<User>, identity: Identity)
    requires DistinctIds(rows) && DistinctTokens(rows)
    ensures var (r1, rows1) := StoreSpec(rows, Some(identity));
            var (r2, rows2) := StoreSpec(rows1, Some(identity));
            r1.Ok? && r2 == r1 && |rows2| == |rows1|
            && (identity.name.Some? ==> rows2 == rows1)
  {
    var token := identity.tokenIdentifier;
    var (r1, rows1) := StoreSpec(rows, Some(identity));
    StorePreservesUniqueness(rows, Some(identity));
    if k :| 0 <= k < |rows| && rows[k].tokenIdentifier == token {
      StoreOnKnownToken(rows, identity, k);
      StoreOnKnownToken(rows1, identity, k);
      assert rows1[k].(name := identity.name) == rows1[k];
    } else {
      assert forall u :: u in rows ==> u.tokenIdentifier != token;
      StoreOnNewToken(rows, identity);
      StoreOnKnownToken(rows1, identity, |rows|);
    }
  }

  /** A nameless identity stored twice ends with its row's name removed. */
  lemma StoreNamelessTwice(token: string)
    ensures var identity := Identity(token, None, None, None);
            var (r1, rows1) := StoreSpec([], Some(identity));
            var (r2, rows2) := StoreSpec(rows1, Some(identity));
            rows1[0].name == Some("Anonymous") && rows2[0].name == None && r2 == r1
  {
    var identity := Identity(token, None, None, None);
    StoreOnNewToken([], identity);
    var rows1 := StoreSpec([], Some(identity)).1;
    StoreOnKnownToken(rows1, identity, 0);
  }

  /** `getCurrentUser`: the first row holding the identity's token. */
  function CurrentUser(rows: seq<User>, identity: Option<Identity>): (r: Result<User>)
    ensures identity.None? <==> r == Err(NotAuthenticated)
    ensures identity.Some? ==>
              (r == Err(UserNotFound) <==> forall u :: u in rows ==> u.tokenIdentifier != identity.value.tokenIdentifier)
    ensures r.Ok? ==> r.value in rows && r.value.tokenIdentifier == identity.value.tokenIdentifier
    ensures r.Ok? ==> r.value == rows[TokenIndex(rows, identity.value.tokenIdentifier)]
  {
    if identity.None? then Err(NotAuthenticated)
    else
      var token := identity.value.tokenIdentifier;
      if forall u :: u in rows ==> u.tokenIdentifier != token then Err(UserNotFound)
      else
        assert exists k :: 0 <= k < |rows| && rows[k].tokenIdentifier == token;
        Ok(rows[TokenIndex(rows, token)])
  }

  /** After `store` succeeds, `getCurrentUser` finds the stored row under the same id. */
  lemma StoreThenCurrentUser(rows: seq<User>, identity: Identity)
    requires DistinctIds(rows) && DistinctTokens(rows)
    ensures var (r, rows') := StoreSpec(rows, Some(identity));
            r.Ok? && CurrentUser(rows', Some(identity)).Ok? && CurrentUser(rows', Some(identity)).value.id == r.value
  {
    var (r, rows') := StoreSpec(rows, Some(identity));
    StorePreservesUniqueness(rows, Some(identity));
    var k :| 0 <= k < |rows'| && rows'[k].id == r.value && rows'[k].tokenIdentifier == identity.tokenIdentifier;
    var c := CurrentUser(rows', Some(identity));
    var j :| 0 <= j < |rows'| && rows'[j] == c.value;
    assert j == k;
  }

  /**
   * The users table as an object that `store` updates in place. Every row
   * it holds has its own id and its own token.
   */
  class UserStore {
    var rows: seq<User>

    ghost predicate Valid()
      reads this
    {
      DistinctIds(rows) && DistinctTokens(rows)
    }

    constructor (initial: seq<User>)
      requires DistinctIds(initial) && DistinctTokens(initial)
      ensures Valid() && rows == initial
    {
      rows := initial;
    }

    /** `store` on the signed-in `identity`. */
    method Store(identity: Option<Identity>) returns (r: Result<UserId>)
      requires Valid()
      modifies this
      ensures Valid()
      ensures (r, rows) == StoreSpec(old(rows), identity)
      ensures r.Ok? && identity.value.tokenIdentifier in Tokens(old(rows)) ==> |rows| == |old(rows)|
      ensures r.Ok? && identity.value.tokenIdentifier !in Tokens(old(rows)) ==> |rows| == |old(rows)| + 1
    {
      StorePreservesUniqueness(rows, identity);
      if identity.None? {
        r := Err(NotAuthenticated);
        return;
      }
      var token := identity.value.tokenIdentifier;
      var matches := WithToken(rows, token);
      if |matches| > 1 {
        r := Err(DuplicateToken);
        return;
      }
      if |matches| == 1 {
        var i := TokenIndex(rows, token);
        if rows[i].name != identity.value.name {
          rows := rows[i := rows[i].(name := identity.value.name)];
        }
        r := Ok(rows[i].id);
        return;
      }
      assert forall u :: u in rows ==> u.tokenIdentifier != token;
      var u := NewUser(FreshId(rows), identity.value);
      rows := rows + [u];
      r := Ok(u.id);
    }
  }

  /** The set of tokens the table holds. */
  function Tokens(rows: seq<User>): set<string> {
    set u | u in rows :: u.tokenIdentifier
  }

  datatype UserHit = UserHit(id: UserId, name: Option<string>, email: Option<string>, imageUrl: Option<string>)

  function Hit(u: User): UserHit {
    UserHit(u.id, u.name, u.email, u.imageUrl)
  }

  function Ids(rows: seq<User>): set<UserId> {
    set u | u in rows :: u.id
  }

  /**
   * `searchUsers`: the name-search hits, then the email-search hits whose id
   * is not among the name hits, without the caller. The two searches are
   * inputs (the full-text index is not part of this model).
   */
  function SearchUsers(me: UserId, nameResult: seq<User>, emailResult: seq<User>): (r: seq<UserHit>)
    ensures forall h :: h in r ==> h.id != me
    ensures forall x :: (exists h :: h in r && h.id == x) <==> (x in Ids(nameResult) + Ids(emailResult) && x != me)
    ensures DistinctIds(nameResult) && DistinctIds(emailResult) ==>
              forall i, j :: 0 <= i < j < |r| ==> r[i].id != r[j].id
    ensures r == Hits(Others(nameResult, me)) + Hits(Others(EmailOnly(nameResult, emailResult), me))
  {
    HitsConcat(Others(nameResult, me), Others(EmailOnly(nameResult, emailResult), me));
    MergedIds(me, nameResult, emailResult);
    assert DistinctIds(nameResult) && DistinctIds(emailResult) ==> DistinctIds(Merged(me, nameResult, emailResult)) by {
      if DistinctIds(nameResult) && DistinctIds(emailResult) {
        MergedDistinct(me, nameResult, emailResult);
      }
    }
    Hits(Merged(me, nameResult, emailResult))
  }

  /** The email hits whose id is not among the name hits. */
  function EmailOnly(nameResult: seq<User>, emailResult: seq<User>): (r: seq<User>)
    ensures forall e :: e in r <==> e in emailResult && e.id !in Ids(nameResult)
  {
    Filter(emailResult, (e: User) => e.id !in Ids(nameResult))
  }

  /** The test `user._id !== currentUser._id`. */
  function NotMe(me: UserId): User -> bool {
    (u: User) => u.id != me
  }

  /** `users.filter((user) => user._id !== currentUser._id)` */
  function Others(rows: seq<User>, me: UserId): (r: seq<User>)
    ensures forall u :: u in r <==> u in rows && u.id != me
  {
    Filter(rows, NotMe(me))
  }

  /** The name hits, then the remaining email hits, without the caller. */
  function Merged(me: UserId, nameResult: seq<User>, emailResult: seq<User>): (r: seq<User>)
    ensures forall u :: u in r <==> u in nameResult + EmailOnly(nameResult, emailResult) && u.id != me
    ensures r == Others(nameResult, me) + Others(EmailOnly(nameResult, emailResult), me)
  {
    FilterConcat(nameResult, EmailOnly(nameResult, emailResult), NotMe(me));
    Others(nameResult + EmailOnly(nameResult, emailResult), me)
  }

  lemma MergedIds(me: UserId, nameResult: seq<User>, emailResult: seq<User>)
    ensures forall x :: x in Ids(Merged(me, nameResult, emailResult)) <==> x in Ids(nameResult) + Ids(emailResult) && x != me
  {
    var kept := Merged(me, nameResult, emailResult);
    forall x ensures x in Ids(kept) <==> x in Ids(nameResult) + Ids(emailResult) && x != me {
      if x in Ids(emailResult) && x !in Ids(nameResult) && x != me {
        var e :| e in emailResult && e.id == x;
        assert e in EmailOnly(nameResult, emailResult) && e in kept;
      }
      if x in Ids(nameResult) && x != me {
        var n :| n in nameResult && n.id == x;
        assert n in kept;
      }
    }
  }

  lemma MergedDistinct(me: UserId, nameResult: seq<User>, emailResult: seq<User>)
    requires DistinctIds(nameResult) && DistinctIds(emailResult)
    ensures DistinctIds(Merged(me, nameResult, emailResult))
  {
    DistinctIdsFilter(emailResult, (e: User) => e.id !in Ids(nameResult));
    DistinctIdsConcat(nameResult, EmailOnly(nameResult, emailResult));
    DistinctIdsFilter(nameResult + EmailOnly(nameResult, emailResult), NotMe(me));
  }

  /** The rows as search hits: the same ids, in the same order. */
  function Hits(rows: seq<User>): (r: seq<UserHit>)
    ensures forall x :: (exists h :: h in r && h.id == x) <==> x in Ids(rows)
    ensures DistinctIds(rows) ==> forall i, j :: 0 <= i < j < |r| ==> r[i].id != r[j].id
    ensures |r| == |rows| && forall i :: 0 <= i < |rows| ==> r[i] == Hit(rows[i])
  {
    var r := seq(|rows|, i requires 0 <= i < |rows| => Hit(rows[i]));
    assert forall h :: h in r ==> exists u :: u in rows && h == Hit(u);
    assert forall u :: u in rows ==> Hit(u) in r by {
      forall u | u in rows ensures Hit(u) in r {
        var i :| 0 <= i < |rows| && rows[i] == u;
        assert r[i] == Hit(u);
      }
    }
    r
  }

  /** Listing two runs of rows lists the first run, then the second. */
  lemma HitsConcat(s: seq<User>, t: seq<User>)
    ensures Hits(s + t) == Hits(s) + Hits(t)
  {
    assert |Hits(s + t)| == |Hits(s) + Hits(t)|;
    forall i | 0 <= i < |s + t| ensures Hits(s + t)[i] == (Hits(s) + Hits(t))[i] {
      if i < |s| {
        assert (s + t)[i] == s[i];
      } else {
        assert (s + t)[i] == t[i - |s|];
      }
    }
  }

  lemma {:induction false} DistinctIdsFilter(s: seq<User>, p: User -> bool)
    requires DistinctIds(s)
    ensures DistinctIds(Filter(s, p))
    decreases |s|
  {
    if s != [] {
      var front := s[..|s| - 1];
      DistinctIdsFilter(front, p);
      assert forall u :: u in Filter(front, p) ==> u in front;
      assert forall u :: u in front ==> u.id != s[|s| - 1].id;
    }
  }

  lemma DistinctIdsConcat(s: seq<User>, t: seq<User>)
    requires DistinctIds(s) && DistinctIds(t)
    requires forall u :: u in t ==> u.id !in Ids(s)
    ensures DistinctIds(s + t)
  {
    forall i, j | 0 <= i < j < |s + t| ensures (s + t)[i].id != (s + t)[j].id {
      if j >= |s| && i < |s| {
        assert (s + t)[j] in t;
        assert (s + t)[i] in s;
      }
    }
  }
}
