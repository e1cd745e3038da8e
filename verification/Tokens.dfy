/**
 * Refresh-token families: login starts one, rotation extends it, reuse of a dead token kills it. Requests are atomic. A
 * token's jti is the index of its row; both jti and family identifiers are fresh when they are made.
 */
module Tokens {
  import opened Prelude

  datatype TokenRow = TokenRow(user: nat, family: nat, revokedAt: Option<int>, replacedBy: Option<nat>)

  /** `active` holds the users that exist and are not disabled. */
  datatype Accounts = Accounts(rows: seq<TokenRow>, nextFamily: nat, active: set<nat>)

  /** A presented token decodes to a jti, or not at all (forged, expired, of another type). */
  type Presented = Option<nat>

  datatype Rotation = Rotated(jti: nat) | InvalidToken | UnknownToken | ReuseDetected | AccountDisabled

  // ---- operations -------------------------------------------------------------------------

  function Issue(a: Accounts, user: nat, family: nat): Accounts {
    a.(rows := a.rows + [TokenRow(user, family, None, None)])
  }

  function Login(a: Accounts, user: nat): Accounts {
    if user in a.active then Issue(a, user, a.nextFamily).(nextFamily := a.nextFamily + 1) else a
  }

  function RevokeAll(rows: seq<TokenRow>, family: nat, now: int): (r: seq<TokenRow>)
    ensures |r| == |rows|
    ensures forall i :: 0 <= i < |rows| ==>
      r[i] == if rows[i].family == family && rows[i].revokedAt.None? then rows[i].(revokedAt := Some(now)) else rows[i]
  {
    if rows == [] then []
    else
      var n := |rows| - 1;
      RevokeAll(rows[..n], family, now) +
      [if rows[n].family == family && rows[n].revokedAt.None? then rows[n].(revokedAt := Some(now)) else rows[n]]
  }

  function RotationOf(a: Accounts, token: Presented): Rotation {
    if token.None? then InvalidToken
    else if token.value >= |a.rows| then UnknownToken
    else if a.rows[token.value].revokedAt.Some? then ReuseDetected
    else if a.rows[token.value].user !in a.active then AccountDisabled
    else Rotated(|a.rows|)
  }

  function Rotate(a: Accounts, token: Presented, now: int): Accounts {
    match RotationOf(a, token)
    case Rotated(jti) =>
      var row := a.rows[token.value];
      var issued := Issue(a, row.user, row.family);
      issued.(rows := issued.rows[token.value := row.(revokedAt := Some(now), replacedBy := Some(jti))])
    case ReuseDetected => a.(rows := RevokeAll(a.rows, a.rows[token.value].family, now))
    case _ => a
  }

  predicate Revocable(a: Accounts, token: Presented) {
    token.Some? && token.value < |a.rows| && a.rows[token.value].revokedAt.None?
  }

  function Logout(a: Accounts, token: Presented, now: int): Accounts {
    if Revocable(a, token) then a.(rows := a.rows[token.value := a.rows[token.value].(revokedAt := Some(now))]) else a
  }

  // ---- the service ------------------------------------------------------------------------

  class AuthService {
    var rows: seq<TokenRow>
    var nextFamily: nat
    var active: set<nat>

    ghost function View(): Accounts
      reads this
    {
      Accounts(rows, nextFamily, active)
    }

    constructor ()
      ensures View() == Accounts([], 0, {})
    {
      rows, nextFamily, active := [], 0, {};
    }

    method IssueTokenPair(user: nat, family: Option<nat>) returns (jti: nat)
      modifies this
      ensures jti == old(|rows|)
      ensures
        View() ==
        if family.Some? then Issue(old(View()), user, family.value)
        else Issue(old(View()), user, old(nextFamily)).(nextFamily := old(nextFamily) + 1)
    {
      jti := |rows|;
      if family.Some? {
        rows := rows + [TokenRow(user, family.value, None, None)];
      } else {
        rows := rows + [TokenRow(user, nextFamily, None, None)];
        nextFamily := nextFamily + 1;
      }
    }

    /** Revoke what is still active in a family; returns how many rows that were. */
    method RevokeFamily(family: nat, now: int) returns (revoked: nat)
      modifies this
      ensures View() == old(View()).(rows := RevokeAll(old(rows), family, now))
      ensures revoked == UnrevokedIn(old(rows), family)
    {
      ghost var before := rows;
      revoked := 0;
      var i := 0;
      while i < |rows|
        invariant 0 <= i <= |rows| == |before|
        invariant nextFamily == old(nextFamily) && active == old(active)
        invariant forall k :: 0 <= k < i ==> rows[k] == RevokeAll(before, family, now)[k]
        invariant forall k :: i <= k < |rows| ==> rows[k] == before[k]
        invariant revoked == UnrevokedIn(before[..i], family)
      {
        assert before[..i + 1][..i] == before[..i];
        if rows[i].family == family && rows[i].revokedAt.None? {
          rows := rows[i := rows[i].(revokedAt := Some(now))];
          revoked := revoked + 1;
        }
        i := i + 1;
      }
      assert rows == RevokeAll(before, family, now) && before[..i] == before;
    }

    method RotateRefresh(token: Presented, now: int) returns (outcome: Rotation)
      modifies this
      ensures outcome == RotationOf(old(View()), token)
      ensures View() == Rotate(old(View()), token, now)
    {
      if token.None? {
        return InvalidToken;
      }
      var jti := token.value;
      if jti >= |rows| {
        return UnknownToken;
      }
      var row := rows[jti];
      if row.revokedAt.Some? {
        var _ := RevokeFamily(row.family, now);
        return ReuseDetected;
      }
      if row.user !in active {
        return AccountDisabled;
      }
      var next := IssueTokenPair(row.user, Some(row.family));
      rows := rows[jti := row.(revokedAt := Some(now), replacedBy := Some(next))];
      outcome := Rotated(next);
    }

    method RevokeRefresh(token: Presented, now: int) returns (revoked: bool)
      modifies this
      ensures revoked == Revocable(old(View()), token)
      ensures View() == Logout(old(View()), token, now)
    {
      if token.None? || token.value >= |rows| || rows[token.value].revokedAt.Some? {
        return false;
      }
      rows := rows[token.value := rows[token.value].(revokedAt := Some(now))];
      revoked := true;
    }
  }

  // ---- what every run keeps -----------------------------------------------------------------

  datatype Op =
    | LoginOp(user: nat)
    | RotateOp(token: Presented, now: int)
    | LogoutOp(token: Presented, now: int)
    | RevokeFamilyOp(family: nat, now: int)
    | EnableOp(user: nat)
    | DisableOp(user: nat)

  function Apply(a: Accounts, op: Op): Accounts {
    match op
    case LoginOp(user) => Login(a, user)
    case RotateOp(token, now) => Rotate(a, token, now)
    case LogoutOp(token, now) => Logout(a, token, now)
    case RevokeFamilyOp(family, now) => a.(rows := RevokeAll(a.rows, family, now))
    case EnableOp(user) => a.(active := a.active + {user})
    case DisableOp(user) => a.(active := a.active - {user})
  }

  function Run(a: Accounts, ops: seq<Op>): Accounts {
    if ops == [] then a else Apply(Run(a, ops[..|ops| - 1]), ops[|ops| - 1])
  }

  /** Number of tokens of a family that are not revoked. */
  function UnrevokedIn(rows: seq<TokenRow>, family: nat): nat {
    if rows == [] then 0
    else
      var n := |rows| - 1;
      UnrevokedIn(rows[..n], family) + if rows[n].family == family && rows[n].revokedAt.None? then 1 else 0
  }

  lemma OlderRevokedPrefix(rows: seq<TokenRow>)
    requires OlderRevoked(rows) && rows != []
    ensures OlderRevoked(rows[..|rows| - 1])
  {
  }

  /** Earlier tokens of a family are revoked. */
  ghost predicate OlderRevoked(rows: seq<TokenRow>) {
    forall i, j :: 0 <= i < j < |rows| && rows[i].family == rows[j].family ==> rows[i].revokedAt.Some?
  }

  lemma {:induction false} CountUnrevoked(rows: seq<TokenRow>, family: nat)
    requires OlderRevoked(rows)
    ensures UnrevokedIn(rows, family) == if Dead(rows, family) then 0 else 1
  {
    if rows != [] {
      var n := |rows| - 1;
      OlderRevokedPrefix(rows);
      CountUnrevoked(rows[..n], family);
      assert Dead(rows, family) <==> Dead(rows[..n], family) && (rows[n].family == family ==> rows[n].revokedAt.Some?);
      if rows[n].family == family {
        forall i | 0 <= i < n && rows[..n][i].family == family
          ensures rows[..n][i].revokedAt.Some?
        {
          assert rows[i].revokedAt.Some?;
        }
      }
    }
  }

  /** Revoking a family hits one row in a reachable state, or none when the family is dead. */
  lemma RevocationsAreFew(rows: seq<TokenRow>, family: nat)
    requires Chained(rows)
    ensures UnrevokedIn(rows, family) == if Dead(rows, family) then 0 else 1
  {
    CountUnrevoked(rows, family);
  }

  /** Nothing in the family can be rotated any more. */
  ghost predicate Dead(rows: seq<TokenRow>, family: nat) {
    forall i :: 0 <= i < |rows| && rows[i].family == family ==> rows[i].revokedAt.Some?
  }

  /** The next token of the same family, in order of creation. */
  ghost predicate IsNext(rows: seq<TokenRow>, i: nat, j: nat) {
    && i < j < |rows| && rows[j].family == rows[i].family
    && forall k :: i < k < j ==> rows[k].family != rows[i].family
  }

  /**
   * Families are linear chains: a link points to the family's next token, of the same user; a token without a link is
   * its family's newest; an unrevoked token has no link.
   */
  ghost predicate Chained(rows: seq<TokenRow>) {
    && (forall i :: 0 <= i < |rows| && rows[i].replacedBy.Some? ==>
          && IsNext(rows, i, rows[i].replacedBy.value) && rows[rows[i].replacedBy.value].user == rows[i].user
          && rows[i].revokedAt.Some?)
    && (forall i, j :: 0 <= i < j < |rows| && rows[i].family == rows[j].family ==> rows[i].replacedBy.Some?)
  }

  ghost predicate FamiliesKnown(a: Accounts) {
    forall i :: 0 <= i < |a.rows| ==> a.rows[i].family < a.nextFamily
  }

  ghost predicate Good(a: Accounts) {
    Chained(a.rows) && FamiliesKnown(a)
  }

  lemma UnrevokedIsNewest(rows: seq<TokenRow>, t: nat)
    requires Chained(rows) && t < |rows| && rows[t].revokedAt.None?
    ensures forall k :: t < k < |rows| ==> rows[k].family != rows[t].family
    ensures forall i :: 0 <= i < t && rows[i].family == rows[t].family ==> rows[i].revokedAt.Some?
  {
    assert rows[t].replacedBy.None?;
  }

  /** A link is followed by exactly one token: no two tokens are replaced by the same one. */
  lemma LinksAreDistinct(rows: seq<TokenRow>, i: nat, j: nat)
    requires Chained(rows) && i < j < |rows| && rows[i].replacedBy.Some?
    ensures rows[i].replacedBy != rows[j].replacedBy
    ensures i < rows[i].replacedBy.value
  {
    assert IsNext(rows, i, rows[i].replacedBy.value);
    assert rows[j].replacedBy.Some? ==> IsNext(rows, j, rows[j].replacedBy.value);
  }

  lemma LoginKeeps(a: Accounts, user: nat)
    requires Good(a)
    ensures Good(Login(a, user))
  {
    var rows' := a.rows + [TokenRow(user, a.nextFamily, None, None)];
    forall i | 0 <= i < |a.rows| && a.rows[i].replacedBy.Some?
      ensures IsNext(rows', i, a.rows[i].replacedBy.value)
    {
      assert IsNext(a.rows, i, a.rows[i].replacedBy.value);
    }
  }

  /** Revoking more tokens leaves the chains alone. */
  lemma RevokingKeeps(rows: seq<TokenRow>, rows': seq<TokenRow>)
    requires Chained(rows) && |rows'| == |rows|
    requires forall i :: 0 <= i < |rows| ==>
      rows'[i] == rows[i].(revokedAt := rows'[i].revokedAt) && (rows[i].revokedAt.Some? ==> rows'[i] == rows[i])
    ensures Chained(rows')
  {
    forall i | 0 <= i < |rows| && rows[i].replacedBy.Some?
      ensures IsNext(rows', i, rows[i].replacedBy.value)
    {
      assert IsNext(rows, i, rows[i].replacedBy.value);
    }
  }

  lemma NextAfterIssue(rows: seq<TokenRow>, rows': seq<TokenRow>, i: nat, k: nat)
    requires IsNext(rows, i, k) && |rows'| >= |rows|
    requires forall j :: 0 <= j < |rows| ==> rows'[j].family == rows[j].family
    ensures IsNext(rows', i, k)
  {
  }

  lemma RotateKeeps(a: Accounts, t: nat, now: int)
    requires Good(a) && RotationOf(a, Some(t)).Rotated?
    ensures Good(Rotate(a, Some(t), now))
  {
    var rows, rows' := a.rows, Rotate(a, Some(t), now).rows;
    var n := |rows|;
    assert forall j :: 0 <= j < n ==> rows'[j].family == rows[j].family && rows'[j].user == rows[j].user;
    assert rows'[n].family == rows[t].family && rows'[n].user == rows[t].user;
    UnrevokedIsNewest(rows, t);
    assert IsNext(rows', t, n);
    forall i | 0 <= i < n && i != t && rows[i].replacedBy.Some?
      ensures IsNext(rows', i, rows[i].replacedBy.value)
    {
      NextAfterIssue(rows, rows', i, rows[i].replacedBy.value);
    }
  }

  lemma ApplyKeeps(a: Accounts, op: Op)
    requires Good(a)
    ensures Good(Apply(a, op))
  {
    match op
    case LoginOp(user) => LoginKeeps(a, user);
    case RotateOp(token, now) =>
      if RotationOf(a, token).Rotated? {
        RotateKeeps(a, token.value, now);
      } else {
        RevokingKeeps(a.rows, Rotate(a, token, now).rows);
      }
    case LogoutOp(token, now) => RevokingKeeps(a.rows, Logout(a, token, now).rows);
    case RevokeFamilyOp(family, now) => RevokingKeeps(a.rows, RevokeAll(a.rows, family, now));
    case EnableOp(user) =>
    case DisableOp(user) =>
  }

  lemma {:induction false} RunKeepsGood(active: set<nat>, ops: seq<Op>)
    ensures Good(Run(Accounts([], 0, active), ops))
  {
    if ops != [] {
      RunKeepsGood(active, ops[..|ops| - 1]);
      ApplyKeeps(Run(Accounts([], 0, active), ops[..|ops| - 1]), ops[|ops| - 1]);
    }
  }

  /** In every reachable state every family has at most one unrevoked token, its newest, and its links form one chain. */
  lemma FamiliesAreChains(active: set<nat>, ops: seq<Op>)
    ensures
      var rows := Run(Accounts([], 0, active), ops).rows;
      && Chained(rows)
      && forall i, j :: 0 <= i < j < |rows| && rows[i].family == rows[j].family ==> rows[i].revokedAt.Some?
  {
    RunKeepsGood(active, ops);
  }

  // ---- dead families ----------------------------------------------------------------------

  /** Presenting a revoked token kills its whole family. */
  lemma ReuseKills(a: Accounts, token: Presented, now: int)
    requires RotationOf(a, token).ReuseDetected?
    ensures Dead(Rotate(a, token, now).rows, a.rows[token.value].family)
  {
  }

  /** Logging out with the active token kills the family as well. */
  lemma LogoutKills(a: Accounts, token: Presented, now: int)
    requires Good(a) && Revocable(a, token)
    ensures Dead(Logout(a, token, now).rows, a.rows[token.value].family)
  {
    var t := token.value;
    UnrevokedIsNewest(a.rows, t);
  }

  lemma DeadStaysDead(a: Accounts, op: Op, family: nat)
    requires Good(a) && family < a.nextFamily && Dead(a.rows, family)
    ensures Dead(Apply(a, op).rows, family) && family < Apply(a, op).nextFamily
  {
  }

  /** A dead family is dead for ever: no later request gives it an unrevoked token again. */
  lemma {:induction false} DeadForEver(a: Accounts, ops: seq<Op>, family: nat)
    requires Good(a) && family < a.nextFamily && Dead(a.rows, family)
    ensures Dead(Run(a, ops).rows, family) && Good(Run(a, ops)) && family < Run(a, ops).nextFamily
  {
    if ops != [] {
      var before := ops[..|ops| - 1];
      DeadForEver(a, before, family);
      DeadStaysDead(Run(a, before), ops[|ops| - 1], family);
      ApplyKeeps(Run(a, before), ops[|ops| - 1]);
    }
  }

  /** After a reuse, no token of the family, old or new, is ever rotated again. */
  lemma ReuseEndsFamily(a: Accounts, token: Presented, now: int, later: seq<Op>, t: Presented)
    requires Good(a) && RotationOf(a, token).ReuseDetected?
    ensures
      var end := Run(Rotate(a, token, now), later);
      RotationOf(end, t).Rotated? ==> end.rows[t.value].family != a.rows[token.value].family
  {
    var family := a.rows[token.value].family;
    ReuseKills(a, token, now);
    ApplyKeeps(a, RotateOp(token, now));
    DeadForEver(Rotate(a, token, now), later, family);
  }

  // ---- who gets a token -------------------------------------------------------------------------

  /** Each answer to a presented token, told from the token's row and its user. */
  lemma RotationIff(a: Accounts, token: Presented)
    ensures
      var known := token.Some? && token.value < |a.rows|;
      && (RotationOf(a, token).InvalidToken? <==> token.None?)
      && (RotationOf(a, token).UnknownToken? <==> token.Some? && token.value >= |a.rows|)
      && (RotationOf(a, token).ReuseDetected? <==> known && a.rows[token.value].revokedAt.Some?)
      && (RotationOf(a, token).AccountDisabled? <==>
          known && a.rows[token.value].revokedAt.None? && a.rows[token.value].user !in a.active)
      && (RotationOf(a, token).Rotated? <==>
          known && a.rows[token.value].revokedAt.None? && a.rows[token.value].user in a.active)
  {
    assert token.Some? && token.value < |a.rows| ==>
      a.rows[token.value].revokedAt.None? || a.rows[token.value].revokedAt.Some?;
  }

  function TimeOf(op: Op): Option<int> {
    match op
    case RotateOp(_, now) => Some(now)
    case LogoutOp(_, now) => Some(now)
    case RevokeFamilyOp(_, now) => Some(now)
    case _ => None
  }

  /** A row keeps its user and family; it is revoked once, at the time of the request that does it, and then frozen. */
  predicate RowEvolves(row: TokenRow, row': TokenRow, time: Option<int>) {
    || row' == row
    || (row.revokedAt.None? && row'.revokedAt.Some? && row'.revokedAt == time
        && row' == row.(revokedAt := time, replacedBy := row'.replacedBy))
  }

  /**
   * One request makes at most one token, fresh, unrevoked and for a user who is active; every older row evolves, and is
   * linked only to that token.
   */
  lemma NewTokenIsForActiveUser(a: Accounts, op: Op)
    ensures
      var a' := Apply(a, op);
      && |a.rows| <= |a'.rows| <= |a.rows| + 1
      && (|a'.rows| > |a.rows| ==>
            && a'.rows[|a.rows|].user in a.active
            && a'.rows[|a.rows|].revokedAt.None? && a'.rows[|a.rows|].replacedBy.None?)
      && (forall i :: 0 <= i < |a.rows| ==> RowEvolves(a.rows[i], a'.rows[i], TimeOf(op)))
      && (forall i :: 0 <= i < |a.rows| && a'.rows[i].replacedBy != a.rows[i].replacedBy ==>
            a'.rows[i].replacedBy == Some(|a.rows|) && |a'.rows| > |a.rows| && op == RotateOp(Some(i), op.now)
            && a'.rows[|a.rows|].user == a.rows[i].user && a'.rows[|a.rows|].family == a.rows[i].family)
  {
    RotationIff(a, if op.RotateOp? then op.token else None);
  }

  predicate Enables(op: Op, user: nat) {
    op == EnableOp(user)
  }

  /**
   * A disabled user who is not enabled again gets no token from any later run, neither by a login nor by presenting an
   * old one, and none of the user's tokens rotates at its end.
   */
  lemma {:induction false} DisabledGetsNoToken(a: Accounts, user: nat, ops: seq<Op>)
    requires user !in a.active && forall op :: op in ops ==> !Enables(op, user)
    ensures
      var end := Run(a, ops);
      && user !in end.active && |a.rows| <= |end.rows|
      && (forall i :: |a.rows| <= i < |end.rows| ==> end.rows[i].user != user)
      && (forall i :: 0 <= i < |a.rows| ==> end.rows[i].user == a.rows[i].user)
      && (forall t: Presented :: RotationOf(end, t).Rotated? ==> end.rows[t.value].user != user)
  {
    if ops != [] {
      var before, op := ops[..|ops| - 1], ops[|ops| - 1];
      DisabledGetsNoToken(a, user, before);
      NewTokenIsForActiveUser(Run(a, before), op);
      assert op in ops;
      assert !Enables(op, user);
      assert user !in Run(a, ops).active;
    }
    forall t: Presented | RotationOf(Run(a, ops), t).Rotated?
      ensures Run(a, ops).rows[t.value].user != user
    {
      RotationIff(Run(a, ops), t);
    }
  }

  /**
   * A login of an active user gives a token of a family of its own; presenting it, and then each token that answers,
   * goes on for as long as the user stays active.
   */
  lemma SessionGoesOn(a: Accounts, user: nat, token: Presented, now: int)
    requires Good(a)
    ensures
      user in a.active ==>
        && RotationOf(Login(a, user), Some(|a.rows|)) == Rotated(|a.rows| + 1)
        && forall i :: 0 <= i < |a.rows| ==> a.rows[i].family != Login(a, user).rows[|a.rows|].family
    ensures
      RotationOf(a, token).Rotated? ==>
        && RotationOf(a, token).jti == |a.rows|
        && RotationOf(Rotate(a, token, now), Some(|a.rows|)) == Rotated(|a.rows| + 1)
        && RotationOf(Rotate(a, token, now), token) == ReuseDetected
  {
  }

  /**
   * Which rows a request may touch: a rotation the presented one, a detected reuse those of its family, a logout the
   * presented one. A refused request touches none, and login, enabling and disabling never do.
   */
  lemma OnlyThePresentedFamily(a: Accounts, op: Op, i: nat)
    requires i < |a.rows| && Apply(a, op).rows[i] != a.rows[i]
    ensures
      match op
      case RotateOp(token, _) =>
        || (RotationOf(a, token).Rotated? && token == Some(i))
        || (RotationOf(a, token).ReuseDetected? && a.rows[i].family == a.rows[token.value].family)
      case LogoutOp(token, _) => token == Some(i) && a.rows[i].revokedAt.None?
      case RevokeFamilyOp(family, _) => a.rows[i].family == family
      case _ => false
  {
    NewTokenIsForActiveUser(a, op);
  }
}
