/**
 Refresh-token rotation. Every database statement of the refresh protocol is one event, so that the
 statements of any number of concurrent callers interleave freely with logins, logouts and crashes.
 */
module TokenFamily {
  import opened Options
  import opened Sets

  /** A row of the refresh token table. */
  datatype Token = Token(
    user: nat,
    family: nat,
    parent: Option<nat>,
    expiresAt: int,
    revokedAt: Option<int>,
    reuseDetectedAt: Option<int>
  )

  type Table = map<nat, Token>

  /** Where a caller of refresh stands, with the row it read. */
  datatype Phase =
    | Loaded(id: nat, stored: Token)
    | FamilyClear(id: nat, stored: Token)
    | Admitted(id: nat, stored: Token)
    | Won(id: nat, stored: Token)
    | Compromised(id: nat, stored: Token)

  datatype State = State(tokens: Table, callers: map<nat, Phase>)

  datatype Event =
    | Present(caller: nat, token: nat)
    | CheckFamily(caller: nat)
    | CheckUser(caller: nat, now: int, active: bool)
    | Swap(caller: nat, now: int)
    | Insert(caller: nat, child: nat, expiresAt: int)
    | InsertFails(caller: nat)
    | RevokeAll(caller: nat, now: int)
    | Crash(caller: nat)
    | Login(user: nat, family: nat, token: nat, expiresAt: int)
    | Logout(user: nat, token: nat, now: int)
    | LogoutAll(user: nat, now: int)

  const Init := State(map[], map[])

  predicate InFamily(t: Token, user: nat, family: nat) {
    t.user == user && t.family == family
  }

  /** The family-wide update of revokeCompromisedFamily. */
  function RevokeFamily(tokens: Table, user: nat, family: nat, now: int): Table {
    map id | id in tokens ::
      if InFamily(tokens[id], user, family)
      then tokens[id].(revokedAt := Some(now), reuseDetectedAt := Some(now))
      else tokens[id]
  }

  /** The update of logoutAll and of a password reset. */
  function RevokeUser(tokens: Table, user: nat, now: int): Table {
    map id | id in tokens ::
      if tokens[id].user == user && tokens[id].revokedAt.None?
      then tokens[id].(revokedAt := Some(now))
      else tokens[id]
  }

  predicate FamilyReused(tokens: Table, user: nat, family: nat) {
    exists id :: id in tokens && InFamily(tokens[id], user, family) && tokens[id].reuseDetectedAt.Some?
  }

  predicate HasChild(tokens: Table, id: nat) {
    exists c :: c in tokens && tokens[c].parent == Some(id)
  }

  function Move(s: State, caller: nat, phase: Phase): State {
    s.(callers := s.callers[caller := phase])
  }

  function Leave(s: State, caller: nat): State {
    s.(callers := s.callers - {caller})
  }

  /** One statement; an event whose guard does not hold changes nothing. */
  function Step(s: State, e: Event): State {
    match e
    case Present(c, id) =>
      if c in s.callers || id !in s.tokens then s
      else if s.tokens[id].revokedAt.Some? then Move(s, c, Phase.Compromised(id, s.tokens[id]))
      else Move(s, c, Loaded(id, s.tokens[id]))
    case CheckFamily(c) =>
      if c !in s.callers || !s.callers[c].Loaded? then s
      else
        var p := s.callers[c];
        if FamilyReused(s.tokens, p.stored.user, p.stored.family)
        then Move(s, c, Phase.Compromised(p.id, p.stored))
        else Move(s, c, FamilyClear(p.id, p.stored))
    case CheckUser(c, now, active) =>
      if c !in s.callers || !s.callers[c].FamilyClear? then s
      else
        var p := s.callers[c];
        if p.stored.expiresAt <= now || !active then Leave(s, c)
        else Move(s, c, Admitted(p.id, p.stored))
    case Swap(c, now) =>
      if c !in s.callers || !s.callers[c].Admitted? then s
      else
        var p := s.callers[c];
        if p.id in s.tokens && s.tokens[p.id].revokedAt.None?
        then Move(s.(tokens := s.tokens[p.id := s.tokens[p.id].(revokedAt := Some(now))]), c, Won(p.id, p.stored))
        else Move(s, c, Phase.Compromised(p.id, p.stored))
    case Insert(c, child, expiresAt) =>
      if c !in s.callers || !s.callers[c].Won? || child in s.tokens then s
      else
        var p := s.callers[c];
        if HasChild(s.tokens, p.id) then Move(s, c, Phase.Compromised(p.id, p.stored))
        else Leave(s.(tokens := s.tokens[child :=
                        Token(p.stored.user, p.stored.family, Some(p.id), expiresAt, None, None)]), c)
    case InsertFails(c) =>
      if c !in s.callers || !s.callers[c].Won? then s
      else Move(s, c, Phase.Compromised(s.callers[c].id, s.callers[c].stored))
    case RevokeAll(c, now) =>
      if c !in s.callers || !s.callers[c].Compromised? then s
      else
        var p := s.callers[c];
        Leave(s.(tokens := RevokeFamily(s.tokens, p.stored.user, p.stored.family, now)), c)
    case Crash(c) => Leave(s, c)
    case Login(user, family, id, expiresAt) =>
      if id in s.tokens || (exists t :: t in s.tokens && s.tokens[t].family == family) then s
      else s.(tokens := s.tokens[id := Token(user, family, None, expiresAt, None, None)])
    case Logout(user, id, now) =>
      if id in s.tokens && s.tokens[id].user == user && s.tokens[id].revokedAt.None?
      then s.(tokens := s.tokens[id := s.tokens[id].(revokedAt := Some(now))])
      else s
    case LogoutAll(user, now) =>
      s.(tokens := RevokeUser(s.tokens, user, now))
  }

  function Run(s: State, es: seq<Event>): State {
    if es == [] then s else Step(Run(s, es[..|es| - 1]), es[|es| - 1])
  }

  // ----- What every reachable state satisfies -----

  /** The tokens of a family, oldest first, each the parent of the next. */
  ghost predicate IsChain(tokens: Table, family: nat, c: seq<nat>) {
    && (forall i :: 0 <= i < |c| ==> c[i] in tokens && tokens[c[i]].family == family)
    && (forall i, j :: 0 <= i < j < |c| ==> c[i] != c[j])
    && (c != [] ==> tokens[c[0]].parent == None)
    && (forall i :: 0 < i < |c| ==> tokens[c[i]].parent == Some(c[i - 1]))
    && (forall id :: id in tokens && tokens[id].family == family ==> id in c)
  }

  ghost predicate SingleChain(tokens: Table, family: nat) {
    exists c :: IsChain(tokens, family, c)
  }

  ghost predicate TableInv(tokens: Table) {
    && (forall f: nat :: SingleChain(tokens, f))
    && (forall id :: id in tokens && tokens[id].parent.Some? ==>
          tokens[id].parent.value in tokens && tokens[tokens[id].parent.value].revokedAt.Some?)
    && (forall a, b :: a in tokens && b in tokens && tokens[a].family == tokens[b].family ==>
          tokens[a].user == tokens[b].user)
    && (forall id :: id in tokens && tokens[id].reuseDetectedAt.Some? ==> tokens[id].revokedAt.Some?)
  }

  ghost predicate CallerInv(tokens: Table, p: Phase) {
    && p.id in tokens
    && p.stored.user == tokens[p.id].user && p.stored.family == tokens[p.id].family
    && (p.Won? ==> tokens[p.id].revokedAt.Some? && !HasChild(tokens, p.id))
    && ((p.FamilyClear? || p.Admitted?) && FamilyReused(tokens, p.stored.user, p.stored.family) ==>
          tokens[p.id].revokedAt.Some?)
  }

  ghost predicate Inv(s: State) {
    && TableInv(s.tokens)
    && (forall c :: c in s.callers ==> CallerInv(s.tokens, s.callers[c]))
    && WinnersDiffer(s)
  }

  /** An update that only ever revokes: no token moves, appears or disappears. */
  ghost predicate OnlyRevokes(t: Table, u: Table) {
    && t.Keys == u.Keys
    && forall id :: id in t ==>
         && u[id].user == t[id].user && u[id].family == t[id].family && u[id].parent == t[id].parent
         && (t[id].revokedAt.Some? ==> u[id].revokedAt.Some?)
         && (u[id].reuseDetectedAt.Some? ==> u[id].revokedAt.Some?)
  }

  lemma RevokingKeepsTable(t: Table, u: Table)
    requires TableInv(t) && OnlyRevokes(t, u)
    ensures TableInv(u)
    ensures forall id: nat :: HasChild(t, id) == HasChild(u, id)
  {
    forall f: nat ensures SingleChain(u, f) {
      assert SingleChain(t, f);
      var c :| IsChain(t, f, c);
      assert forall id :: id in t <==> id in u.Keys;
      assert IsChain(u, f, c);
    }
    forall id: nat ensures HasChild(t, id) == HasChild(u, id) {
      assert forall c :: c in t <==> c in u.Keys;
      if HasChild(t, id) { var c :| c in t && t[c].parent == Some(id); assert c in u && u[c].parent == Some(id); }
      if HasChild(u, id) { var c :| c in u && u[c].parent == Some(id); assert c in t && t[c].parent == Some(id); }
    }
  }

  lemma ChainExtends(t: Table, family: nat, c: seq<nat>, child: nat, token: Token)
    requires IsChain(t, family, c) && c != [] && child !in t
    requires token.family == family && token.parent == Some(c[|c| - 1])
    ensures IsChain(t[child := token], family, c + [child])
  {
    var u, d := t[child := token], c + [child];
    forall i | 0 < i < |d| ensures u[d[i]].parent == Some(d[i - 1]) {
      if i < |c| { assert t[c[i]].parent == Some(c[i - 1]); }
    }
  }

  lemma OnlyLastIsChildless(t: Table, family: nat, c: seq<nat>, i: nat)
    requires IsChain(t, family, c) && i < |c| - 1
    ensures HasChild(t, c[i])
  {
    assert t[c[i + 1]].parent == Some(c[i]);
  }

  lemma ChildlessEndsChain(t: Table, family: nat, c: seq<nat>, id: nat)
    requires IsChain(t, family, c) && id in t && t[id].family == family && !HasChild(t, id)
    ensures c != [] && c[|c| - 1] == id
  {
    assert id in c;
    var i :| 0 <= i < |c| && c[i] == id;
    if i < |c| - 1 { OnlyLastIsChildless(t, family, c, i); }
  }

  lemma ChildKeepsTable(t: Table, child: nat, parent: nat, expiresAt: int)
    requires TableInv(t) && child !in t && parent in t && t[parent].revokedAt.Some? && !HasChild(t, parent)
    ensures TableInv(t[child := Token(t[parent].user, t[parent].family, Some(parent), expiresAt, None, None)])
  {
    var token := Token(t[parent].user, t[parent].family, Some(parent), expiresAt, None, None);
    var u := t[child := token];
    forall f: nat ensures SingleChain(u, f) {
      assert SingleChain(t, f);
      var c :| IsChain(t, f, c);
      if f == token.family {
        ChildlessEndsChain(t, f, c, parent);
        ChainExtends(t, f, c, child, token);
      } else {
        assert IsChain(u, f, c);
      }
    }
  }

  lemma RootKeepsTable(t: Table, root: nat, user: nat, family: nat, expiresAt: int)
    requires TableInv(t) && root !in t && forall id :: id in t ==> t[id].family != family
    ensures TableInv(t[root := Token(user, family, None, expiresAt, None, None)])
  {
    var u := t[root := Token(user, family, None, expiresAt, None, None)];
    forall f: nat ensures SingleChain(u, f) {
      assert SingleChain(t, f);
      var c :| IsChain(t, f, c);
      assert IsChain(u, f, if f == family then [root] else c);
    }
  }

  /** Revocation spreads: a family that becomes reused has every token revoked. */
  ghost predicate ReuseRevokesAll(t: Table, u: Table) {
    forall user: nat, family: nat, id |
      id in u && InFamily(u[id], user, family) && FamilyReused(u, user, family) && !FamilyReused(t, user, family) ::
      u[id].revokedAt.Some?
  }

  lemma RevokingKeepsCaller(t: Table, u: Table, p: Phase)
    requires TableInv(t) && OnlyRevokes(t, u) && ReuseRevokesAll(t, u) && CallerInv(t, p)
    ensures CallerInv(u, p)
  {
    RevokingKeepsTable(t, u);
    assert p.id in u.Keys;
    if FamilyReused(u, p.stored.user, p.stored.family) && !FamilyReused(t, p.stored.user, p.stored.family) {
      assert InFamily(u[p.id], p.stored.user, p.stored.family);
    }
  }

  lemma NewTokenKeepsCaller(t: Table, id: nat, token: Token, p: Phase)
    requires CallerInv(t, p) && id !in t && token.reuseDetectedAt.None?
    requires p.Won? ==> token.parent != Some(p.id)
    ensures CallerInv(t[id := token], p)
  {
    var u := t[id := token];
    if FamilyReused(u, p.stored.user, p.stored.family) {
      var x :| x in u && InFamily(u[x], p.stored.user, p.stored.family) && u[x].reuseDetectedAt.Some?;
      assert x in t && FamilyReused(t, p.stored.user, p.stored.family);
    }
    assert HasChild(u, p.id) ==> HasChild(t, p.id) || token.parent == Some(p.id);
  }

  ghost predicate Revoking(t: Table, u: Table) {
    OnlyRevokes(t, u) && ReuseRevokesAll(t, u)
  }

  lemma NothingRevoked(t: Table)
    requires TableInv(t)
    ensures Revoking(t, t)
  {
  }

  lemma OneRevoked(t: Table, id: nat, now: int)
    requires TableInv(t) && id in t
    ensures Revoking(t, t[id := t[id].(revokedAt := Some(now))])
  {
    var u := t[id := t[id].(revokedAt := Some(now))];
    forall user: nat, family: nat | FamilyReused(u, user, family) ensures FamilyReused(t, user, family) {
      var x :| x in u && InFamily(u[x], user, family) && u[x].reuseDetectedAt.Some?;
      assert x in t && InFamily(t[x], user, family) && t[x].reuseDetectedAt.Some?;
    }
  }

  lemma FamilyRevoked(t: Table, user: nat, family: nat, now: int)
    requires TableInv(t)
    ensures Revoking(t, RevokeFamily(t, user, family, now))
  {
    var u := RevokeFamily(t, user, family, now);
    forall who: nat, f: nat | FamilyReused(u, who, f) && !FamilyReused(t, who, f) ensures who == user && f == family {
      var x :| x in u && InFamily(u[x], who, f) && u[x].reuseDetectedAt.Some?;
      assert x in t && InFamily(t[x], who, f);
    }
  }

  lemma UserRevoked(t: Table, user: nat, now: int)
    requires TableInv(t)
    ensures Revoking(t, RevokeUser(t, user, now))
  {
    var u := RevokeUser(t, user, now);
    forall who: nat, f: nat | FamilyReused(u, who, f) ensures FamilyReused(t, who, f) {
      var x :| x in u && InFamily(u[x], who, f) && u[x].reuseDetectedAt.Some?;
      assert x in t && InFamily(t[x], who, f) && t[x].reuseDetectedAt.Some?;
    }
  }

  lemma RevokingStepShape(s: State, e: Event)
    requires TableInv(s.tokens) && !e.Insert? && !e.Login?
    ensures Revoking(s.tokens, Step(s, e).tokens)
  {
    NothingRevoked(s.tokens);
    match e
    case Swap(c, now) =>
      if c in s.callers && s.callers[c].id in s.tokens { OneRevoked(s.tokens, s.callers[c].id, now); }
    case RevokeAll(c, now) =>
      if c in s.callers { FamilyRevoked(s.tokens, s.callers[c].stored.user, s.callers[c].stored.family, now); }
    case Logout(user, id, now) => if id in s.tokens { OneRevoked(s.tokens, id, now); }
    case LogoutAll(user, now) => UserRevoked(s.tokens, user, now);
    case _ =>
  }

  lemma InsertKeepsTable(s: State, e: Event)
    requires Inv(s) && (e.Insert? || e.Login?)
    ensures TableInv(Step(s, e).tokens)
  {
    if Step(s, e).tokens != s.tokens {
      if e.Insert? {
        ChildKeepsTable(s.tokens, e.child, s.callers[e.caller].id, e.expiresAt);
      } else {
        RootKeepsTable(s.tokens, e.token, e.user, e.family, e.expiresAt);
      }
    }
  }

  lemma StepKeepsTable(s: State, e: Event)
    requires Inv(s)
    ensures TableInv(Step(s, e).tokens)
  {
    if e.Insert? || e.Login? {
      InsertKeepsTable(s, e);
    } else {
      RevokingStepShape(s, e);
      RevokingKeepsTable(s.tokens, Step(s, e).tokens);
    }
  }

  lemma SwapKeepsCaller(s: State, e: Event)
    requires Inv(s) && e.Swap? && e.caller in s.callers && s.callers[e.caller].Admitted?
    ensures e.caller in Step(s, e).callers && CallerInv(Step(s, e).tokens, Step(s, e).callers[e.caller])
  {
    assert CallerInv(s.tokens, s.callers[e.caller]);
    RevokingStepShape(s, e);
    RevokingKeepsTable(s.tokens, Step(s, e).tokens);
  }

  /** The events that leave the token table alone give the caller a phase its own reads justify. */
  lemma ReadingKeepsCaller(s: State, e: Event, c: nat)
    requires Inv(s) && c in Step(s, e).callers && !e.Insert? && !e.Login?
    requires c !in s.callers || Step(s, e).callers[c] != s.callers[c]
    ensures CallerInv(Step(s, e).tokens, Step(s, e).callers[c])
  {
    if c in s.callers { assert CallerInv(s.tokens, s.callers[c]); }
    if e.Swap? && e.caller in s.callers && s.callers[e.caller].Admitted? { SwapKeepsCaller(s, e); }
  }

  lemma StepKeepsCaller(s: State, e: Event, c: nat)
    requires Inv(s) && c in Step(s, e).callers
    ensures CallerInv(Step(s, e).tokens, Step(s, e).callers[c])
  {
    var u := Step(s, e);
    if e.Insert? {
      if u.tokens != s.tokens {
        NewTokenKeepsCaller(s.tokens, e.child, u.tokens[e.child], s.callers[c]);
      }
    } else if e.Login? {
      if u.tokens != s.tokens {
        NewTokenKeepsCaller(s.tokens, e.token, u.tokens[e.token], s.callers[c]);
      }
    } else if c in s.callers && u.callers[c] == s.callers[c] {
      RevokingStepShape(s, e);
      RevokingKeepsCaller(s.tokens, u.tokens, s.callers[c]);
    } else {
      ReadingKeepsCaller(s, e, c);
    }
  }

  ghost predicate WinnersDiffer(s: State) {
    forall c, d :: c in s.callers && d in s.callers && c != d && s.callers[c].Won? && s.callers[d].Won? ==>
      s.callers[c].id != s.callers[d].id
  }

  lemma StepKeepsWinners(s: State, e: Event)
    requires WinnersDiffer(s) && forall c :: c in s.callers ==> CallerInv(s.tokens, s.callers[c])
    ensures WinnersDiffer(Step(s, e))
  {
  }

  lemma StepKeepsInv(s: State, e: Event)
    requires Inv(s)
    ensures Inv(Step(s, e))
  {
    StepKeepsTable(s, e);
    StepKeepsWinners(s, e);
    var u := Step(s, e);
    forall c | c in u.callers ensures CallerInv(u.tokens, u.callers[c]) { StepKeepsCaller(s, e, c); }
  }

  lemma {:induction false} RunKeepsInv(s: State, es: seq<Event>)
    requires Inv(s)
    ensures Inv(Run(s, es))
  {
    if es != [] {
      RunKeepsInv(s, es[..|es| - 1]);
      StepKeepsInv(Run(s, es[..|es| - 1]), es[|es| - 1]);
    }
  }

  /** In every reachable state each family is one chain of parent links, and callers stand where they should. */
  lemma ReachableInv(es: seq<Event>)
    ensures Inv(Run(Init, es))
  {
    forall f: nat ensures SingleChain(Init.tokens, f) { assert IsChain(Init.tokens, f, []); }
    RunKeepsInv(Init, es);
  }

  // ----- At most one live head per family -----

  function Members(s: State, family: nat): set<nat> {
    set id | id in s.tokens && s.tokens[id].family == family
  }

  function Unrevoked(s: State, family: nat): set<nat> {
    set id | id in s.tokens && s.tokens[id].family == family && s.tokens[id].revokedAt.None?
  }

  /** The callers between their winning revoke and their insert. */
  function Winners(s: State, family: nat): set<nat> {
    set c | c in s.callers && s.callers[c].Won? && s.callers[c].stored.family == family
  }

  lemma ChildlessIsLast(t: Table, family: nat, a: nat, b: nat)
    requires TableInv(t) && a in t && b in t && t[a].family == family && t[b].family == family
    requires !HasChild(t, a) && !HasChild(t, b)
    ensures a == b
  {
    assert SingleChain(t, family);
    var c :| IsChain(t, family, c);
    var i :| 0 <= i < |c| && c[i] == a;
    var j :| 0 <= j < |c| && c[j] == b;
    forall k | 0 <= k < |c| - 1 ensures HasChild(t, c[k]) { OnlyLastIsChildless(t, family, c, k); }
    assert i == |c| - 1 && j == |c| - 1;
  }

  lemma AllSame(x: set<nat>)
    requires forall a, b :: a in x && b in x ==> a == b
    ensures |x| <= 1
  {
    if x != {} {
      var a :| a in x;
      assert x == {a};
    }
  }

  /** The live tokens of a family and the refreshes about to add one number at most one together. */
  lemma AtMostOneHead(es: seq<Event>, family: nat)
    ensures var s := Run(Init, es); |Unrevoked(s, family)| + |Winners(s, family)| <= 1
  {
    var s := Run(Init, es);
    ReachableInv(es);
    HeadsBound(s, family);
  }

  lemma HeadsBound(s: State, family: nat)
    requires Inv(s)
    ensures |Unrevoked(s, family)| + |Winners(s, family)| <= 1
  {
    forall a, b | a in Unrevoked(s, family) && b in Unrevoked(s, family) ensures a == b {
      ChildlessIsLast(s.tokens, family, a, b);
    }
    forall c, d | c in Winners(s, family) && d in Winners(s, family) ensures c == d {
      assert CallerInv(s.tokens, s.callers[c]) && CallerInv(s.tokens, s.callers[d]);
      ChildlessIsLast(s.tokens, family, s.callers[c].id, s.callers[d].id);
    }
    forall a, c | a in Unrevoked(s, family) && c in Winners(s, family) ensures false {
      assert CallerInv(s.tokens, s.callers[c]);
      ChildlessIsLast(s.tokens, family, a, s.callers[c].id);
    }
    AllSame(Unrevoked(s, family));
    AllSame(Winners(s, family));
  }

  /** Revocation is never undone, and neither is the mark of reuse. */
  lemma {:induction false} RevocationLasts(s: State, es: seq<Event>, id: nat)
    requires id in s.tokens
    ensures id in Run(s, es).tokens
    ensures s.tokens[id].revokedAt.Some? ==> Run(s, es).tokens[id].revokedAt.Some?
    ensures s.tokens[id].reuseDetectedAt.Some? ==> Run(s, es).tokens[id].reuseDetectedAt.Some?
    ensures Run(s, es).tokens[id].family == s.tokens[id].family && Run(s, es).tokens[id].user == s.tokens[id].user
    ensures Run(s, es).tokens[id].parent == s.tokens[id].parent
  {
    if es != [] { RevocationLasts(s, es[..|es| - 1], id); }
  }

  // ----- After reuse is detected -----

  ghost predicate Reused(s: State, family: nat) {
    exists id :: id in s.tokens && s.tokens[id].family == family && s.tokens[id].reuseDetectedAt.Some?
  }

  lemma ReusedFamilyIsRevokedForCallers(s: State, c: nat, family: nat)
    requires Inv(s) && Reused(s, family) && c in s.callers
    requires s.callers[c].Admitted? && s.callers[c].stored.family == family
    ensures s.tokens[s.callers[c].id].revokedAt.Some?
  {
    var r :| r in s.tokens && s.tokens[r].family == family && s.tokens[r].reuseDetectedAt.Some?;
    assert CallerInv(s.tokens, s.callers[c]);
    assert InFamily(s.tokens[r], s.callers[c].stored.user, family);
  }

  /** No caller wins a revoke in a reused family. */
  lemma NoNewWinner(s: State, e: Event, family: nat)
    requires Inv(s) && Reused(s, family)
    ensures forall c :: c in Winners(Step(s, e), family) ==>
      c in Winners(s, family) && Step(s, e).callers[c] == s.callers[c]
  {
    if e.Swap? && e.caller in s.callers && s.callers[e.caller].Admitted?
      && s.callers[e.caller].stored.family == family {
      ReusedFamilyIsRevokedForCallers(s, e.caller, family);
    }
  }

  ghost predicate SpendsWinner(s: State, u: State, family: nat, c: nat, child: nat) {
    && c in Winners(s, family) && c !in Winners(u, family)
    && child !in s.tokens && child in u.tokens && u.tokens[child].parent == Some(s.callers[c].id)
    && Members(u, family) == Members(s, family) + {child}
  }

  lemma OthersAddNone(s: State, e: Event, family: nat)
    requires Inv(s) && Reused(s, family)
    requires e.Insert? && Step(s, e).tokens != s.tokens ==> s.callers[e.caller].stored.family != family
    ensures Members(Step(s, e), family) == Members(s, family)
  {
    assert forall id :: id in Members(Step(s, e), family) <==> id in Members(s, family);
  }

  /** A reused family gains a token only when a caller already past its revoke inserts. */
  lemma OnlyWinnersAdd(s: State, e: Event, family: nat)
    requires Inv(s) && Reused(s, family)
    ensures Members(Step(s, e), family) == Members(s, family)
      || (e.Insert? && SpendsWinner(s, Step(s, e), family, e.caller, e.child))
  {
    var u := Step(s, e);
    if e.Insert? && u.tokens != s.tokens && s.callers[e.caller].stored.family == family {
      assert Members(u, family) == Members(s, family) + {e.child};
    } else {
      OthersAddNone(s, e, family);
    }
  }

  lemma StepKeepsReused(s: State, e: Event, family: nat)
    requires Reused(s, family)
    ensures Reused(Step(s, e), family)
  {
    var r :| r in s.tokens && s.tokens[r].family == family && s.tokens[r].reuseDetectedAt.Some?;
    assert [e][..0] == [] && Run(s, [e]) == Step(s, e);
    RevocationLasts(s, [e], r);
  }

  /** What can become of a reused family between two states. */
  ghost predicate Dwindles(s: State, u: State, family: nat) {
    && |Members(u, family)| + |Winners(u, family)| <= |Members(s, family)| + |Winners(s, family)|
    && (forall c :: c in Winners(u, family) ==> c in Winners(s, family) && u.callers[c] == s.callers[c])
    && (forall id :: id in Members(s, family) ==> id in Members(u,
                                                                family) && u.tokens[id].parent == s.tokens[id].parent)
    && (forall id :: id in Members(u, family) && id !in Members(s, family) ==>
          exists c :: c in Winners(s, family) && u.tokens[id].parent == Some(s.callers[c].id))
  }

  lemma StepDwindles(s: State, e: Event, family: nat)
    requires Inv(s) && Reused(s, family)
    ensures Dwindles(s, Step(s, e), family)
  {
    var u := Step(s, e);
    NoNewWinner(s, e, family);
    OnlyWinnersAdd(s, e, family);
    assert Winners(u, family) <= Winners(s, family);
    if Members(u, family) == Members(s, family) {
      SubsetSize(Winners(u, family), Winners(s, family));
    } else {
      SubsetSize(Winners(u, family), Winners(s, family) - {e.caller});
    }
    forall id | id in Members(s, family)
      ensures id in Members(u, family) && u.tokens[id].parent == s.tokens[id].parent
    {
      assert [e][..0] == [] && Run(s, [e]) == u;
      RevocationLasts(s, [e], id);
    }
  }

  lemma DwindlesTransitive(s: State, m: State, u: State, family: nat)
    requires Dwindles(s, m, family) && Dwindles(m, u, family)
    ensures Dwindles(s, u, family)
  {
    forall id | id in Members(u, family) && id !in Members(s, family)
      ensures exists c :: c in Winners(s, family) && u.tokens[id].parent == Some(s.callers[c].id)
    {
      if id in Members(m, family) {
        var c :| c in Winners(s, family) && m.tokens[id].parent == Some(s.callers[c].id);
      } else {
        var c :| c in Winners(m, family) && u.tokens[id].parent == Some(m.callers[c].id);
        assert c in Winners(s, family) && m.callers[c] == s.callers[c];
      }
    }
  }

  lemma {:induction false} RunDwindles(s: State, es: seq<Event>, family: nat)
    requires Inv(s) && Reused(s, family)
    ensures Reused(Run(s, es), family) && Dwindles(s, Run(s, es), family)
  {
    if es != [] {
      var m, e := Run(s, es[..|es| - 1]), es[|es| - 1];
      RunDwindles(s, es[..|es| - 1], family);
      RunKeepsInv(s, es[..|es| - 1]);
      StepKeepsReused(m, e, family);
      StepDwindles(m, e, family);
      DwindlesTransitive(s, m, Step(m, e), family);
    }
  }

  lemma ParentInFamily(t: Table, child: nat)
    requires TableInv(t) && child in t && t[child].parent.Some?
    ensures t[child].parent.value in t && t[t[child].parent.value].family == t[child].family
  {
    assert SingleChain(t, t[child].family);
    var c :| IsChain(t, t[child].family, c);
    assert child in c;
    var i :| 0 <= i < |c| && c[i] == child;
    if i > 0 { assert c[i - 1] in t && t[c[i]].parent == Some(c[i - 1]); }
  }

  /** In a reused family every parent is a token from before the detection. */
  lemma ParentsAreOld(s: State, u: State, family: nat, child: nat)
    requires Inv(s) && Dwindles(s, u, family)
    requires child in Members(u, family) && u.tokens[child].parent.Some?
    ensures u.tokens[child].parent.value in Members(s, family)
  {
    if child in Members(s, family) {
      ParentInFamily(s.tokens, child);
    } else {
      var c :| c in Winners(s, family) && u.tokens[child].parent == Some(s.callers[c].id);
      assert CallerInv(s.tokens, s.callers[c]);
    }
  }

  lemma NewNeverParent(s: State, u: State, family: nat, id: nat, child: nat)
    requires Inv(s) && Inv(u) && Dwindles(s, u, family)
    requires id in Members(u, family) - Members(s, family) && child in u.tokens
    ensures u.tokens[child].parent != Some(id)
  {
    if u.tokens[child].parent.Some? {
      ParentInFamily(u.tokens, child);
      if child in Members(u, family) { ParentsAreOld(s, u, family, child); }
    }
  }

  lemma AtMostOneMore(s: State, u: State, family: nat)
    requires Inv(s) && Dwindles(s, u, family)
    ensures Members(s, family) <= Members(u, family) && |Members(u, family) - Members(s, family)| <= 1
  {
    HeadsBound(s, family);
    assert Members(s, family) <= Members(u, family);
    DifferenceSize(Members(s, family), Members(u, family));
  }

  /**
   Once reuse is detected in a family, whatever then happens at most one more token is created in it,
   and no token created after the detection ever becomes the parent of another: it cannot be rotated.
   */
  lemma ReuseStopsTheFamily(before: seq<Event>, after: seq<Event>, family: nat)
    requires Reused(Run(Init, before), family)
    ensures var s := Run(Init, before); var u := Run(s, after);
      && Members(s, family) <= Members(u, family)
      && |Members(u, family) - Members(s, family)| <= 1
      && (forall id, child :: id in Members(u, family) - Members(s, family) && child in u.tokens ==>
            u.tokens[child].parent != Some(id))
  {
    var s := Run(Init, before);
    var u := Run(s, after);
    ReachableInv(before);
    RunKeepsInv(s, after);
    RunDwindles(s, after, family);
    AtMostOneMore(s, u, family);
    forall id, child | id in Members(u, family) - Members(s, family) && child in u.tokens
      ensures u.tokens[child].parent != Some(id)
    {
      NewNeverParent(s, u, family, id, child);
    }
  }

  // ----- A second use is detected, whatever comes between the caller's statements -----

  /** A statement of the caller, or its crash. */
  predicate Concerns(e: Event, c: nat) {
    match e
    case Present(k, _) => k == c
    case CheckFamily(k) => k == c
    case CheckUser(k, _, _) => k == c
    case Swap(k, _) => k == c
    case Insert(k, _, _) => k == c
    case InsertFails(k) => k == c
    case RevokeAll(k, _) => k == c
    case Crash(k) => k == c
    case _ => false
  }

  lemma {:induction false} CallerWaits(s: State, es: seq<Event>, c: nat)
    requires c in s.callers && forall e <- es :: !Concerns(e, c)
    ensures c in Run(s, es).callers && Run(s, es).callers[c] == s.callers[c]
  {
    if es != [] {
      CallerWaits(s, es[..|es| - 1], c);
      assert !Concerns(es[|es| - 1], c);
    }
  }

  /** The presented token was found revoked, by its row or by losing the conditional update to another caller. */
  predicate FindsReuse(s: State, e: Event) {
    || (e.Present? && e.caller !in s.callers && e.token in s.tokens && s.tokens[e.token].revokedAt.Some?)
    || (e.Swap? && e.caller in s.callers && s.callers[e.caller].Admitted?
        && s.callers[e.caller].id in s.tokens && s.tokens[s.callers[e.caller].id].revokedAt.Some?)
  }

  function TokenOf(s: State, e: Event): nat
    requires FindsReuse(s, e)
  {
    if e.Present? then e.token else s.callers[e.caller].id
  }

  lemma UseIsCompromised(s: State, use: Event)
    requires Inv(s) && FindsReuse(s, use)
    ensures var u := Step(s, use);
      && use.caller in u.callers && u.callers[use.caller].Compromised?
      && u.callers[use.caller].stored.family == s.tokens[TokenOf(s, use)].family
  {
    if use.Swap? { assert CallerInv(s.tokens, s.callers[use.caller]); }
  }

  lemma RevokesAllMembers(v: State, c: nat, now: int)
    requires Inv(v) && c in v.callers && v.callers[c].Compromised?
    ensures var family := v.callers[c].stored.family; var u := Step(v, RevokeAll(c, now));
      && Reused(u, family)
      && forall id :: id in u.tokens && u.tokens[id].family == family ==>
           u.tokens[id].revokedAt.Some? && u.tokens[id].reuseDetectedAt.Some?
  {
    var p := v.callers[c];
    assert CallerInv(v.tokens, p);
    var u := Step(v, RevokeAll(c, now));
    assert InFamily(v.tokens[p.id], p.stored.user, p.stored.family);
    assert p.id in u.tokens && u.tokens[p.id].reuseDetectedAt.Some?;
  }

  /**
   A caller that uses a token a second time revokes its family, with every token in it by then, and from then
   on the family is marked as reused; other callers may do anything between its two statements.
  */
  lemma SecondUseRevokesTheFamily(before: seq<Event>, use: Event, between: seq<Event>, now: int)
    requires FindsReuse(Run(Init, before), use) && forall e <- between :: !Concerns(e, use.caller)
    ensures var s := Run(Init, before); var family := s.tokens[TokenOf(s, use)].family;
      var u := Step(Run(Step(s, use), between), RevokeAll(use.caller, now));
      && Reused(u, family)
      && forall id :: id in u.tokens && u.tokens[id].family == family ==>
           u.tokens[id].revokedAt.Some? && u.tokens[id].reuseDetectedAt.Some?
  {
    var s, c := Run(Init, before), use.caller;
    ReachableInv(before);
    UseIsCompromised(s, use);
    StepKeepsInv(s, use);
    CallerWaits(Step(s, use), between, c);
    RunKeepsInv(Step(s, use), between);
    RevokesAllMembers(Run(Step(s, use), between), c, now);
  }

  /** The parent links of every family of every reachable state form one chain. */
  lemma FamiliesAreChains(es: seq<Event>, family: nat)
    ensures SingleChain(Run(Init, es).tokens, family)
  {
    ReachableInv(es);
  }

  // ----- One refresh with nothing interleaved -----

  datatype Denial = InvalidToken | UnknownSession | TokenReused | FamilyCompromised | SessionExpired | UserInactive

  datatype Outcome = Granted(child: nat) | Denied(reason: Denial) | IssueFailed

  /** The statements of one caller, in program order; those of branches not taken change nothing. */
  function RefreshEvents(id: nat, now: int, active: bool, child: nat, expiresAt: int, works: bool): seq<Event> {
    [Present(0, id), CheckFamily(0), CheckUser(0, now, active), Swap(0, now),
     if works then Insert(0, child, expiresAt) else InsertFails(0), RevokeAll(0, now)]
  }

  function Alone(t: Table, id: nat, now: int, active: bool, child: nat, expiresAt: int, works: bool): State {
    var s1 := Step(State(t, map[]), Present(0, id));
    var s2 := Step(s1, CheckFamily(0));
    var s3 := Step(s2, CheckUser(0, now, active));
    var s4 := Step(s3, Swap(0, now));
    var s5 := Step(s4, if works then Insert(0, child, expiresAt) else InsertFails(0));
    Step(s5, RevokeAll(0, now))
  }

  /** An uninterrupted refresh is a run of the concurrent protocol. */
  lemma AloneIsARun(t: Table, id: nat, now: int, active: bool, child: nat, expiresAt: int, works: bool)
    ensures Alone(t, id, now, active, child, expiresAt, works)
         == Run(State(t, map[]), RefreshEvents(id, now, active, child, expiresAt, works))
  {
    var es, s := RefreshEvents(id, now, active, child, expiresAt, works), State(t, map[]);
    assert es[..5][..4] == es[..4] && es[..4][..3] == es[..3] && es[..3][..2] == es[..2] && es[..2][..1] == es[..1];
    assert Run(s, es[..1]) == Step(s, es[0]) by { assert es[..1][..0] == []; }
    assert Run(s, es[..2]) == Step(Run(s, es[..1]), es[1]);
    assert Run(s, es[..3]) == Step(Run(s, es[..2]), es[2]);
    assert Run(s, es[..4]) == Step(Run(s, es[..3]), es[3]);
    assert Run(s, es[..5]) == Step(Run(s, es[..4]), es[4]);
  }

  /** What an uninterrupted refresh leaves in the table, case by case. */
  lemma AloneTokens(t: Table, id: nat, now: int, active: bool, child: nat, expiresAt: int, works: bool)
    requires child !in t
    ensures Alone(t, id, now, active, child, expiresAt, works).tokens ==
      if id !in t then t
      else if t[id].revokedAt.Some? || FamilyReused(t, t[id].user, t[id].family) then RevokeFamily(t, t[id].user,
                                                                                                   t[id].family, now)
      else if t[id].expiresAt <= now || !active then t
      else
        var swapped := t[id := t[id].(revokedAt := Some(now))];
        if !works || HasChild(swapped, id) then RevokeFamily(swapped, t[id].user, t[id].family, now)
        else swapped[child := Token(t[id].user, t[id].family, Some(id), expiresAt, None, None)]
  {
  }

  lemma RevokingKeepsChildren(t: Table, id: nat, now: int)
    requires id in t
    ensures HasChild(t[id := t[id].(revokedAt := Some(now))], id) <==> HasChild(t, id)
  {
    var u := t[id := t[id].(revokedAt := Some(now))];
    forall c | c in t ensures c in u && u[c].parent == t[c].parent {}
  }

  class AuthService {
    var tokens: Table

    constructor ()
      ensures tokens == map[]
    {
      tokens := map[];
    }

    method RevokeCompromisedFamily(user: nat, family: nat, now: int)
      modifies this
      ensures tokens == RevokeFamily(old(tokens), user, family, now)
      ensures OnlyFamilyRevoked(old(tokens), tokens, user, family)
    {
      tokens := RevokeFamily(tokens, user, family, now);
    }

    static ghost predicate OnlyFamilyRevoked(t: Table, u: Table, user: nat, family: nat) {
      u.Keys == t.Keys && forall id :: id in t ==>
        if t[id].user == user && t[id].family == family then u[id].revokedAt.Some? && u[id].reuseDetectedAt.Some?
        else u[id] == t[id]
    }

    /** A token that has not been used, of a family in which no reuse has been detected. */
    static ghost predicate Fresh(t: Table, id: nat) {
      && id in t && t[id].revokedAt.None?
      && forall k :: k in t && t[k].user == t[id].user && t[k].family == t[id].family ==> t[k].reuseDetectedAt.None?
    }

    /** A token that may be exchanged for a child. */
    static ghost predicate Exchangeable(t: Table, id: nat, now: int, active: bool) {
      Fresh(t, id) && now < t[id].expiresAt && active
    }

    /**
     refresh, its statements uninterrupted. The caller supplies what the model cannot compute: whether the
     signature verified, whether the owner is still active, and whether signing and storing the child works.
     Every answer is given exactly where its own guard is the first to hold, and the table is as it was, or
     rotated, or has this one family revoked.
     */
    method Refresh(verified: bool, id: nat, now: int, active: bool, child: nat, expiresAt: int, works: bool)
      returns (r: Outcome)
      requires child !in tokens
      modifies this
      ensures verified ==> tokens == Alone(old(tokens), id, now, active, child, expiresAt, works).tokens
      ensures r == Denied(InvalidToken) <==> !verified
      ensures r == Denied(UnknownSession) <==> verified && id !in old(tokens)
      ensures r == Denied(TokenReused) <==> verified && id in old(tokens) && old(tokens)[id].revokedAt.Some?
      ensures r == Denied(FamilyCompromised) <==>
        verified && id in old(tokens) && old(tokens)[id].revokedAt.None? && !Fresh(old(tokens), id)
      ensures r == Denied(SessionExpired) <==> verified && Fresh(old(tokens), id) && old(tokens)[id].expiresAt <= now
      ensures r == Denied(UserInactive) <==>
        verified && Fresh(old(tokens), id) && now < old(tokens)[id].expiresAt && !active
      ensures r == IssueFailed <==>
        verified && Exchangeable(old(tokens), id, now, active) && (!works || HasChild(old(tokens), id))
      ensures r == Granted(child) <==>
        verified && Exchangeable(old(tokens), id, now, active) && works && !HasChild(old(tokens), id)
      ensures r.Denied? && r.reason in {InvalidToken, UnknownSession, SessionExpired, UserInactive} ==>
        tokens == old(tokens)
      ensures r == Denied(TokenReused) || r == Denied(FamilyCompromised) || r == IssueFailed ==>
        id in old(tokens)
        && OnlyFamilyRevoked(old(tokens), tokens, old(tokens)[id].user, old(tokens)[id].family)
      ensures r.Granted? ==>
        id in old(tokens)
        && tokens == old(tokens)[id := old(tokens)[id].(revokedAt := Some(now))]
                       [child := Token(old(tokens)[id].user, old(tokens)[id].family, Some(id), expiresAt, None, None)]
    {
      if !verified { return Denied(InvalidToken); }
      AloneTokens(tokens, id, now, active, child, expiresAt, works);
      if id !in tokens { return Denied(UnknownSession); }
      var stored := tokens[id];
      if stored.revokedAt.Some? {
        RevokeCompromisedFamily(stored.user, stored.family, now);
        return Denied(TokenReused);
      }
      if FamilyReused(tokens, stored.user, stored.family) {
        RevokeCompromisedFamily(stored.user, stored.family, now);
        return Denied(FamilyCompromised);
      }
      if stored.expiresAt <= now { return Denied(SessionExpired); }
      if !active { return Denied(UserInactive); }
      // Nothing runs in between, so the conditional update finds the row still unrevoked.
      RevokingKeepsChildren(tokens, id, now);
      tokens := tokens[id := tokens[id].(revokedAt := Some(now))];
      if !works || HasChild(tokens, id) {
        RevokeCompromisedFamily(stored.user, stored.family, now);
        return IssueFailed;
      }
      tokens := tokens[child := Token(stored.user, stored.family, Some(id), expiresAt, None, None)];
      return Granted(child);
    }

    /** The first token of a login or a registration, in a family of its own. */
    method Login(user: nat, family: nat, id: nat, expiresAt: int)
      requires id !in tokens && forall t :: t in tokens ==> tokens[t].family != family
      modifies this
      ensures tokens == Step(State(old(tokens), map[]), Event.Login(user, family, id, expiresAt)).tokens
      ensures tokens == old(tokens)[id := Token(user, family, None, expiresAt, None, None)]
    {
      tokens := tokens[id := Token(user, family, None, expiresAt, None, None)];
    }

    method Logout(user: nat, id: nat, now: int)
      modifies this
      ensures tokens == Step(State(old(tokens), map[]), Event.Logout(user, id, now)).tokens
      ensures tokens.Keys == old(tokens).Keys && forall k :: k in tokens ==>
        tokens[k] == if k == id && old(tokens)[k].user == user && old(tokens)[k].revokedAt.None?
                     then old(tokens)[k].(revokedAt := Some(now)) else old(tokens)[k]
    {
      if id in tokens && tokens[id].user == user && tokens[id].revokedAt.None? {
        tokens := tokens[id := tokens[id].(revokedAt := Some(now))];
      }
    }

    /** logoutAll, and the revocation done by a password reset. */
    method LogoutAll(user: nat, now: int) returns (count: nat)
      modifies this
      ensures tokens == Step(State(old(tokens), map[]), Event.LogoutAll(user, now)).tokens
      ensures count == |set id | id in old(tokens) && old(tokens)[id].user == user && old(tokens)[id].revokedAt.None?|
      ensures tokens.Keys == old(tokens).Keys && forall k :: k in tokens ==>
        tokens[k] == if old(tokens)[k].user == user && old(tokens)[k].revokedAt.None?
                     then old(tokens)[k].(revokedAt := Some(now)) else old(tokens)[k]
    {
      count := |set id | id in tokens && tokens[id].user == user && tokens[id].revokedAt.None?|;
      tokens := RevokeUser(tokens, user, now);
    }
  }
}
