/** Refresh tokens in families: rotation by claim and insert, reuse detection, and logout, with the
    database statements of any number of requests interleaved. */
module RefreshTokens {
  import opened Elements

  type Hash = nat
  type Family = nat
  type User = nat
  type Request = nat

  datatype TokenRow = TokenRow(user: User, family: Family, expiresAt: Time, revoked: bool)

  type Table = map<Hash, TokenRow>

  predicate Usable(t: Table, h: Hash, now: Time) {
    h in t && t[h].expiresAt > now
  }

  function Revoke(t: Table, h: Hash): Table {
    if h in t then t[h := t[h].(revoked := true)] else t
  }

  /** Revoke every token of a family. */
  function RevokeAll(t: Table, f: Family): Table {
    map h | h in t :: if t[h].family == f then t[h].(revoked := true) else t[h]
  }

  function Rotated(t: Table, h: Hash, newToken: Hash, expiresAt: Time): Table
    requires h in t
  {
    t[newToken := TokenRow(t[h].user, t[h].family, expiresAt, false)]
  }

  // ----- The handlers, one request at a time -----

  datatype Answer = Rotation(token: Hash) | Invalid | Reuse

  class TokenStore {
    var rows: Table

    constructor ()
      ensures rows == map[]
    {
      rows := map[];
    }

    method Login(user: User, family: Family, token: Hash, expiresAt: Time)
      modifies this
      ensures rows == old(rows)[token := TokenRow(user, family, expiresAt, false)]
    {
      rows := rows[token := TokenRow(user, family, expiresAt, false)];
    }

    /** The claim: at most one caller finds the token unrevoked. */
    method Claim(h: Hash) returns (claimed: bool)
      modifies this
      ensures claimed == (h in old(rows) && !old(rows)[h].revoked)
      ensures rows == Revoke(old(rows), h)
    {
      claimed := h in rows && !rows[h].revoked;
      if claimed {
        rows := rows[h := rows[h].(revoked := true)];
      }
      assert h in old(rows) && old(rows)[h].revoked ==> old(rows)[h := old(rows)[h]] == old(rows);
    }

    /** A usable token is exchanged once; a used one that comes back takes its whole family with it. */
    method Refresh(h: Hash, now: Time, newToken: Hash, expiresAt: Time) returns (answer: Answer)
      requires newToken !in rows
      modifies this
      ensures !Usable(old(rows), h, now) ==> answer == Invalid && rows == old(rows)
      ensures Usable(old(rows), h, now) && !old(rows)[h].revoked ==>
        answer == Rotation(newToken) && rows == Rotated(Revoke(old(rows), h), h, newToken, expiresAt)
      ensures Usable(old(rows), h, now) && old(rows)[h].revoked ==>
        answer == Reuse && rows == RevokeAll(old(rows), old(rows)[h].family)
    {
      if h !in rows || rows[h].expiresAt <= now {
        return Invalid;
      }
      var existing := rows[h];
      var claimed := Claim(h);
      if !claimed {
        assert rows == old(rows);
        rows := RevokeAll(rows, existing.family);
        return Reuse;
      }
      rows := rows[newToken := TokenRow(existing.user, existing.family, expiresAt, false)];
      return Rotation(newToken);
    }

    method Logout(h: Hash)
      modifies this
      ensures rows == Revoke(old(rows), h)
    {
      var _ := Claim(h);
    }
  }

  // ----- Statements interleaved -----

  /** Where a refresh request is. */
  datatype Phase =
    | Found(token: Hash)
    | Claimed(token: Hash)
    | Lost(token: Hash)

  /** `exchanged` lists the tokens that were claimed for a rotation. */
  datatype State = State(rows: Table, requests: map<Request, Phase>, exchanged: seq<Hash>)

  datatype Action =
    | LogIn(user: User, family: Family, token: Hash, expiresAt: Time)
    | Lookup(r: Request, token: Hash, now: Time)
    | TryClaim(r: Request)
    | Insert(r: Request, token: Hash, expiresAt: Time)
    | RevokeFamily(r: Request)
    | LogOut(token: Hash)
    | Drop(r: Request)

  /** New tokens and new families are random, so never used before. */
  predicate Enabled(s: State, a: Action) {
    match a
    case LogIn(_, family, token, _) => token !in s.rows && forall h | h in s.rows :: s.rows[h].family != family
    case Lookup(r, _, _) => r !in s.requests
    case TryClaim(r) => r in s.requests && s.requests[r].Found? && s.requests[r].token in s.rows
    case Insert(r, token, _) => r in s.requests && s.requests[r].Claimed? && s.requests[r].token in s.rows && token !in s.rows
    case RevokeFamily(r) => r in s.requests && s.requests[r].Lost? && s.requests[r].token in s.rows
    case LogOut(_) => true
    case Drop(r) => r in s.requests
  }

  function Next(s: State, a: Action): State
    requires Enabled(s, a)
  {
    match a
    case LogIn(user, family, token, expiresAt) => s.(rows := s.rows[token := TokenRow(user, family, expiresAt, false)])
    case Lookup(r, token, now) => if Usable(s.rows, token, now) then s.(requests := s.requests[r := Found(token)]) else s
    case TryClaim(r) =>
      var h := s.requests[r].token;
      if s.rows[h].revoked then s.(requests := s.requests[r := Lost(h)])
      else State(Revoke(s.rows, h), s.requests[r := Claimed(h)], s.exchanged + [h])
    case Insert(r, token, expiresAt) =>
      s.(rows := Rotated(s.rows, s.requests[r].token, token, expiresAt), requests := s.requests - {r})
    case RevokeFamily(r) =>
      s.(rows := RevokeAll(s.rows, s.rows[s.requests[r].token].family), requests := s.requests - {r})
    case LogOut(token) => s.(rows := Revoke(s.rows, token))
    case Drop(r) => s.(requests := s.requests - {r})
  }

  ghost predicate ValidRun(s: State, run: seq<Action>)
    decreases |run|
  {
    run == [] || (Enabled(s, run[0]) && ValidRun(Next(s, run[0]), run[1..]))
  }

  function After(s: State, run: seq<Action>): State
    requires ValidRun(s, run)
    decreases |run|
  {
    if run == [] then s else After(Next(s, run[0]), run[1..])
  }

  const NO_TOKENS := State(map[], map[], [])

  predicate IsLive(s: State, h: Hash, f: Family) {
    h in s.rows && s.rows[h].family == f && !s.rows[h].revoked
  }

  predicate IsRotating(s: State, r: Request, f: Family) {
    r in s.requests && s.requests[r].Claimed? && s.requests[r].token in s.rows && s.rows[s.requests[r].token].family == f
  }

  /** The tokens of a family that are not revoked, and the rotations of it that are claimed but not yet inserted. */
  function Live(s: State, f: Family): set<Hash> {
    set h | h in s.rows && IsLive(s, h, f)
  }

  function Rotating(s: State, f: Family): set<Request> {
    set r | r in s.requests && IsRotating(s, r, f)
  }

  /** A family has one place, taken by a live token or by a rotation. */
  ghost predicate OnePlaceIn(s: State, f: Family) {
    && (forall g, h | IsLive(s, g, f) && IsLive(s, h, f) :: g == h)
    && (forall q, r | IsRotating(s, q, f) && IsRotating(s, r, f) :: q == r)
    && (forall h, r | IsLive(s, h, f) :: !IsRotating(s, r, f))
  }

  ghost predicate OnePlace(s: State) {
    forall f :: OnePlaceIn(s, f)
  }

  /** Requests hold stored tokens, and what was exchanged is revoked. */
  ghost predicate Stored(s: State) {
    && (forall r | r in s.requests :: s.requests[r].token in s.rows)
    && (forall i | 0 <= i < |s.exchanged| :: s.exchanged[i] in s.rows && s.rows[s.exchanged[i]].revoked)
    && (forall i, j | 0 <= i < j < |s.exchanged| :: s.exchanged[i] != s.exchanged[j])
  }

  lemma StepKeepsStored(s: State, a: Action)
    requires Stored(s) && Enabled(s, a)
    ensures Stored(Next(s, a))
  {
  }

  /** What a step changes: rows are never removed, keep their family, and never come back to life. */
  lemma StepOnlyRevokes(s: State, a: Action, h: Hash)
    requires Enabled(s, a) && h in s.rows
    ensures h in Next(s, a).rows && Next(s, a).rows[h].family == s.rows[h].family
    ensures s.rows[h].revoked ==> Next(s, a).rows[h].revoked
  {
  }

  /** Where a new live token or a new rotation comes from. */
  lemma StepTakesPlace(s: State, a: Action, f: Family)
    requires Stored(s) && Enabled(s, a)
    ensures var s' := Next(s, a);
      && (forall h | IsLive(s', h, f) && !IsLive(s, h, f) ::
            || (a.LogIn? && h == a.token && a.family == f)
            || (a.Insert? && h == a.token && IsRotating(s, a.r, f) && !IsRotating(s', a.r, f)))
      && (forall r | IsRotating(s', r, f) && !IsRotating(s, r, f) ::
            a.TryClaim? && r == a.r && IsLive(s, s.requests[r].token, f) && !IsLive(s', s.requests[r].token, f))
  {
  }

  lemma StepKeepsOnePlaceIn(s: State, a: Action, f: Family)
    requires Stored(s) && OnePlaceIn(s, f) && Enabled(s, a)
    ensures OnePlaceIn(Next(s, a), f)
  {
    StepTakesPlace(s, a, f);
    hide Next, Stored;
    if a.LogIn? && a.family == f {
      assert forall h :: !IsLive(s, h, f);
      assert forall r :: !IsRotating(s, r, f);
    }
  }

  lemma StepKeepsOnePlace(s: State, a: Action)
    requires Stored(s) && OnePlace(s) && Enabled(s, a)
    ensures OnePlace(Next(s, a))
  {
    hide Next, Stored, OnePlaceIn;
    forall f ensures OnePlaceIn(Next(s, a), f) {
      StepKeepsOnePlaceIn(s, a, f);
    }
  }

  lemma {:induction false} RunKeepsInv(s: State, run: seq<Action>)
    requires Stored(s) && OnePlace(s) && ValidRun(s, run)
    ensures Stored(After(s, run)) && OnePlace(After(s, run))
    decreases |run|
  {
    hide Stored, OnePlace, Next;
    if run != [] {
      StepKeepsStored(s, run[0]);
      StepKeepsOnePlace(s, run[0]);
      RunKeepsInv(Next(s, run[0]), run[1..]);
    }
  }

  // ----- Theorems over every interleaving -----

  /** Each family has at most one live token or rotation in flight, together. */
  lemma AtMostOnePlace(run: seq<Action>, f: Family)
    requires ValidRun(NO_TOKENS, run)
    ensures var s := After(NO_TOKENS, run); |Live(s, f)| + |Rotating(s, f)| <= 1
  {
    RunKeepsInv(NO_TOKENS, run);
    var s := After(NO_TOKENS, run);
    assert OnePlaceIn(s, f);
    AtMostOneMember(Live(s, f));
    AtMostOneMember(Rotating(s, f));
    if h :| h in Live(s, f) {
      assert Rotating(s, f) == {};
    } else {
      assert Live(s, f) == {};
    }
  }

  lemma AtMostOneMember<T>(s: set<T>)
    requires forall x, y | x in s && y in s :: x == y
    ensures |s| <= 1
  {
    if x :| x in s {
      assert s == {x};
    }
  }

  /** No token is exchanged twice. */
  lemma ExchangedOnce(run: seq<Action>, i: nat, j: nat)
    requires ValidRun(NO_TOKENS, run) && i < j < |After(NO_TOKENS, run).exchanged|
    ensures After(NO_TOKENS, run).exchanged[i] != After(NO_TOKENS, run).exchanged[j]
  {
    RunKeepsInv(NO_TOKENS, run);
  }

  /** The family a step acts on, if any. */
  function Families(s: State, a: Action): set<Family>
    requires Enabled(s, a)
  {
    match a
    case LogIn(_, family, _, _) => {family}
    case Lookup(_, _, _) => {}
    case TryClaim(r) => {s.rows[s.requests[r].token].family}
    case Insert(r, _, _) => {s.rows[s.requests[r].token].family}
    case RevokeFamily(r) => {s.rows[s.requests[r].token].family}
    case LogOut(token) => if token in s.rows then {s.rows[token].family} else {}
    case Drop(_) => {}
  }

  ghost predicate Avoids(s: State, run: seq<Action>, f: Family)
    requires ValidRun(s, run)
    decreases |run|
  {
    run == [] || (f !in Families(s, run[0]) && Avoids(Next(s, run[0]), run[1..], f))
  }

  lemma StepLeavesFamily(s: State, a: Action, f: Family, h: Hash)
    requires Enabled(s, a) && f !in Families(s, a) && h in s.rows && s.rows[h].family == f
    ensures h in Next(s, a).rows && Next(s, a).rows[h] == s.rows[h]
  {
  }

  /** Whatever happens to other families, their reuse detection included, leaves every token of a family as it is. */
  lemma {:induction false} FamiliesAreIsolated(s: State, run: seq<Action>, f: Family, h: Hash)
    requires ValidRun(s, run) && Avoids(s, run, f) && h in s.rows && s.rows[h].family == f
    ensures h in After(s, run).rows && After(s, run).rows[h] == s.rows[h]
    decreases |run|
  {
    hide Next, Families;
    if run != [] {
      StepLeavesFamily(s, run[0], f, h);
      FamiliesAreIsolated(Next(s, run[0]), run[1..], f, h);
    }
  }

  // ----- When a family is dead -----

  /** A known family with neither a live token nor a rotation in flight. */
  ghost predicate Dead(s: State, f: Family) {
    && (exists h | h in s.rows :: s.rows[h].family == f)
    && (forall h :: !IsLive(s, h, f)) && (forall r :: !IsRotating(s, r, f))
  }

  lemma StepKeepsDead(s: State, a: Action, f: Family)
    requires Stored(s) && Enabled(s, a) && Dead(s, f)
    ensures Dead(Next(s, a), f)
  {
    StepTakesPlace(s, a, f);
    var h :| h in s.rows && s.rows[h].family == f;
    StepOnlyRevokes(s, a, h);
    hide Next;
  }

  lemma {:induction false} DeadStaysDead(s: State, run: seq<Action>, f: Family)
    requires Stored(s) && Dead(s, f) && ValidRun(s, run)
    ensures Dead(After(s, run), f)
    decreases |run|
  {
    hide Stored, Dead, Next;
    if run != [] {
      StepKeepsStored(s, run[0]);
      StepKeepsDead(s, run[0], f);
      DeadStaysDead(Next(s, run[0]), run[1..], f);
    }
  }

  /** Whether a token of the family can ever be live again. */
  ghost predicate Revivable(s: State, f: Family) {
    exists run: seq<Action> :: ValidRun(s, run) && Live(After(s, run), f) != {}
  }

  lemma RotationRevives(s: State, r: Request, f: Family)
    requires Stored(s) && IsRotating(s, r, f)
    ensures Revivable(s, f)
  {
    var token := NewHash(s.rows);
    var run := [Insert(r, token, 0)];
    assert run[1..] == [];
    var s' := Next(s, run[0]);
    assert After(s', []) == s';
    assert ValidRun(s', run[1..]) && After(s', run[1..]) == s';
    assert ValidRun(s, run) && After(s, run) == s';
    assert token in Live(s', f);
  }

  lemma NewHash(t: Table) returns (h: Hash)
    ensures h !in t
  {
    h := Above(t.Keys);
  }

  lemma {:induction false} Above(s: set<nat>) returns (m: nat)
    ensures forall x | x in s :: x < m
    decreases s
  {
    m := 0;
    if s != {} {
      var x :| x in s;
      var n := Above(s - {x});
      m := if n > x then n else x + 1;
      assert forall y | y in s :: y == x || y in s - {x};
    }
  }

  /** Reuse detection is final exactly when no rotation of the family is in flight: one that was
      already claimed still inserts its token, and the family lives on. */
  lemma FamilyRevokeIsFinalIff(run: seq<Action>, r: Request)
    requires ValidRun(NO_TOKENS, run) && Enabled(After(NO_TOKENS, run), RevokeFamily(r))
    ensures var s := After(NO_TOKENS, run); var f := s.rows[s.requests[r].token].family;
      && Live(Next(s, RevokeFamily(r)), f) == {}
      && (Revivable(Next(s, RevokeFamily(r)), f) <==> Rotating(s, f) != {})
  {
    var s := After(NO_TOKENS, run);
    RunKeepsInv(NO_TOKENS, run);
    StepKeepsStored(s, RevokeFamily(r));
    FinalIff(s, r);
  }

  lemma FinalIff(s: State, r: Request)
    requires Stored(s) && Enabled(s, RevokeFamily(r)) && Stored(Next(s, RevokeFamily(r)))
    ensures var f := s.rows[s.requests[r].token].family;
      && Live(Next(s, RevokeFamily(r)), f) == {}
      && (Revivable(Next(s, RevokeFamily(r)), f) <==> Rotating(s, f) != {})
  {
    var f, s' := s.rows[s.requests[r].token].family, Next(s, RevokeFamily(r));
    assert forall h :: !IsLive(s', h, f);
    assert forall q :: IsRotating(s', q, f) <==> IsRotating(s, q, f);
    hide Next, Stored;
    if q :| q in Rotating(s, f) {
      RotationRevives(s', q, f);
    } else {
      assert forall q :: IsRotating(s, q, f) ==> q in Rotating(s, f);
      assert s.requests[r].token in s'.rows by { StepOnlyRevokes(s, RevokeFamily(r), s.requests[r].token); }
      StepOnlyRevokes(s, RevokeFamily(r), s.requests[r].token);
      NotRevivable(s', f);
    }
  }

  lemma NotRevivable(s: State, f: Family)
    requires Stored(s) && Dead(s, f)
    ensures !Revivable(s, f)
  {
    forall run: seq<Action> | ValidRun(s, run) ensures Live(After(s, run), f) == {} {
      DeadStaysDead(s, run, f);
    }
  }

  /** Logging out with a token of a family ends it for good if and only if the family has no other live token
      and no rotation in flight: a logout during a rotation revokes nothing, and the new token still comes. */
  lemma LogoutIsFinalIff(run: seq<Action>, h: Hash)
    requires ValidRun(NO_TOKENS, run) && h in After(NO_TOKENS, run).rows
    ensures var s := After(NO_TOKENS, run); var f := s.rows[h].family;
      !Revivable(Next(s, LogOut(h)), f) <==> Live(s, f) <= {h} && Rotating(s, f) == {}
  {
    var s := After(NO_TOKENS, run);
    RunKeepsInv(NO_TOKENS, run);
    StepKeepsStored(s, LogOut(h));
    LogoutIff(s, h);
  }

  lemma LogoutIff(s: State, h: Hash)
    requires Stored(s) && Stored(Next(s, LogOut(h))) && h in s.rows
    ensures var f := s.rows[h].family;
      !Revivable(Next(s, LogOut(h)), f) <==> Live(s, f) <= {h} && Rotating(s, f) == {}
  {
    var f, s' := s.rows[h].family, Next(s, LogOut(h));
    assert forall g :: IsLive(s', g, f) <==> IsLive(s, g, f) && g != h;
    assert forall r :: IsRotating(s', r, f) <==> IsRotating(s, r, f);
    StepOnlyRevokes(s, LogOut(h), h);
    hide Next, Stored;
    assert forall g :: g in Live(s, f) <==> IsLive(s, g, f);
    assert forall r :: r in Rotating(s, f) <==> IsRotating(s, r, f);
    if r :| r in Rotating(s, f) {
      RotationRevives(s', r, f);
    } else if g :| g in Live(s, f) && g != h {
      assert ValidRun(s', []) && After(s', []) == s';
      assert g in Live(s', f);
    } else {
      NotRevivable(s', f);
    }
  }

  /** In particular, logging out with the live token of a family ends it for good. */
  lemma LogoutIsFinal(run: seq<Action>, h: Hash, f: Family)
    requires ValidRun(NO_TOKENS, run) && IsLive(After(NO_TOKENS, run), h, f)
    ensures !Revivable(Next(After(NO_TOKENS, run), LogOut(h)), f)
  {
    var s := After(NO_TOKENS, run);
    LogoutIsFinalIff(run, h);
    RunKeepsInv(NO_TOKENS, run);
    assert OnePlaceIn(s, f);
  }
}
