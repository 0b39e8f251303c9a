/** What logins, refreshes, branch switches, logouts and panels bring about: the
    tokens they hand out, the branch these carry, and the grants in force. */
module SessionEffects {
  import opened Wrappers
  import opened Sessions

  // ----- new tokens -----

  predicate IsNew(s: State, s': State, n: Token) {
    n in s'.issued && n !in s.issued
  }

  /** The account may act at all, and in this branch if it belongs to a business. */
  predicate MayAct(a: Account, branch: Option<Id>) {
    && a.active
    && (a.tenant.Some? ==> a.tenantActive && branch.Some? && branch.value in a.branches)
  }

  lemma {:induction false} LoginIssues(s: State, c: Settings, user: Id, a: Account, branch: Option<Id>, staff: bool, remember: bool)
    requires Inv(s)
    ensures var s' := Step(s, c, DoLogin(user, a, branch, staff, remember));
            var access := Token(Access, user, s.nextId, s.nextId + 1, s.nextId + 3, a.tenant, branch, s.now + c.accessSeconds, remember);
            var refresh := Token(Refresh, user, s.nextId, s.nextId + 1, s.nextId + 2, a.tenant, branch,
                                 s.now + Lifetime(c, remember), remember);
            && s'.issued == s.issued + {access, refresh} && access !in s.issued && refresh !in s.issued
            && s'.sessions == s.sessions[s.nextId := Session(user, a.tenant, s.nextId + 1, s.nextId + 2, false,
                                                             s.now + Lifetime(c, remember), staff)]
  {
  }

  lemma {:induction false} LoginResolves(s: State, c: Settings, user: Id, a: Account, branch: Option<Id>, staff: bool, remember: bool)
    requires Inv(s)
    ensures var s' := Step(s, c, DoLogin(user, a, branch, staff, remember));
            var access := Token(Access, user, s.nextId, s.nextId + 1, s.nextId + 3, a.tenant, branch, s.now + c.accessSeconds, remember);
            && (Resolve(s', access, a).Some? <==> Lifetime(c, remember) > 0 && MayAct(a, OrElse(branch, a.home)))
            && (Resolve(s', access, a).Some? ==>
                  && Resolve(s', access, a).value.user == user
                  && Resolve(s', access, a).value.branch == OrElse(branch, a.home))
  {
    LoginIssues(s, c, user, a, branch, staff, remember);
    var s' := Step(s, c, DoLogin(user, a, branch, staff, remember));
    assert s'.now == s.now;
  }

  lemma {:induction false} LoginRefreshes(s: State, c: Settings, user: Id, a: Account, branch: Option<Id>, staff: bool, remember: bool)
    requires Inv(s)
    ensures var s' := Step(s, c, DoLogin(user, a, branch, staff, remember));
            var refresh := Token(Refresh, user, s.nextId, s.nextId + 1, s.nextId + 2, a.tenant, branch,
                                 s.now + Lifetime(c, remember), remember);
            Judge(s', refresh, a) == Accepted <==> Lifetime(c, remember) > 0 && a.active && (a.tenant.Some? ==> a.tenantActive)
  {
    LoginIssues(s, c, user, a, branch, staff, remember);
    var s' := Step(s, c, DoLogin(user, a, branch, staff, remember));
    assert s'.now == s.now;
  }

  /** What a login promises of its two tokens. */
  ghost predicate LoggedIn(s: State, s': State, c: Settings, user: Id, a: Account, branch: Option<Id>, remember: bool, access: Token, refresh: Token) {
    && IsNew(s, s', access) && IsNew(s, s', refresh) && (forall n :: IsNew(s, s', n) ==> n in {access, refresh})
    && access.kind == Access && access.expires == s.now + c.accessSeconds
    && refresh.kind == Refresh && refresh.expires == s.now + (if remember then c.rememberSeconds else c.sessionSeconds)
    && access.session == refresh.session && access.session !in s.sessions
    && access.branch == refresh.branch == branch
    && (Resolve(s', access, a).Some? <==> Lifetime(c, remember) > 0 && MayAct(a, OrElse(branch, a.home)))
    && (Resolve(s', access, a).Some? ==>
          && Resolve(s', access, a).value.user == user
          && Resolve(s', access, a).value.branch == OrElse(branch, a.home))
    && (Judge(s', refresh, a) == Accepted <==> Lifetime(c, remember) > 0 && a.active && (a.tenant.Some? ==> a.tenantActive))
  }

  lemma {:induction false} LoginIsGood(s: State, c: Settings, user: Id, a: Account, branch: Option<Id>, staff: bool, remember: bool)
    returns (access: Token, refresh: Token)
    requires Inv(s)
    ensures LoggedIn(s, Step(s, c, DoLogin(user, a, branch, staff, remember)), c, user, a, branch, remember, access, refresh)
  {
    LoginIssues(s, c, user, a, branch, staff, remember);
    LoginResolves(s, c, user, a, branch, staff, remember);
    LoginRefreshes(s, c, user, a, branch, staff, remember);
    var s' := Step(s, c, DoLogin(user, a, branch, staff, remember));
    access := Token(Access, user, s.nextId, s.nextId + 1, s.nextId + 3, a.tenant, branch, s.now + c.accessSeconds, remember);
    refresh := Token(Refresh, user, s.nextId, s.nextId + 1, s.nextId + 2, a.tenant, branch, s.now + Lifetime(c, remember), remember);
    assert LoggedIn(s, s', c, user, a, branch, remember, access, refresh);
  }

  /** A login hands out two new tokens of a new session. Where sessions last at all and
      the account may act in the branch chosen, the one resolves to that user and branch
      and the other is accepted for a refresh; and neither is good for anything else. */
  lemma {:induction false} LoginBegins(c: Settings, xs: seq<Action>, user: Id, a: Account, branch: Option<Id>, staff: bool, remember: bool)
    returns (access: Token, refresh: Token)
    ensures var s := RunFrom(START, c, xs);
            LoggedIn(s, Step(s, c, DoLogin(user, a, branch, staff, remember)), c, user, a, branch, remember, access, refresh)
  {
    RunKeepsInv(START, c, xs);
    access, refresh := LoginIsGood(RunFrom(START, c, xs), c, user, a, branch, staff, remember);
  }

  /** An accepted rotation's two new tokens, the access token good for its branch. */
  ghost predicate Rotated(s: State, s': State, c: Settings, t: Token, a: Account, branch: Option<Id>) {
    && (forall n :: IsNew(s, s', n) ==>
          && n.session == t.session && n.user == t.user && n.branch == branch && n.remember == t.remember
          && n.expires == s.now + (if n.kind == Access then c.accessSeconds
                                   else if t.remember then c.rememberSeconds else c.sessionSeconds))
    && (exists n :: IsNew(s, s', n) && n.kind == Access
                    && (Resolve(s', n, a).Some? <==> Lifetime(c, t.remember) > 0)
                    && (Resolve(s', n, a).Some? ==> Resolve(s', n, a).value.branch == OrElse(branch, a.home)))
    && (exists n :: IsNew(s, s', n) && n.kind == Refresh && (Judge(s', n, a) == Accepted <==> Lifetime(c, t.remember) > 0))
  }

  lemma {:induction false} RotateRotates(s: State, c: Settings, t: Token, a: Account, branch: Option<Id>, newFamily: bool)
    requires Inv(s) && Judge(s, t, a) == Accepted
    requires if a.tenant.None? then branch.None? else branch.Some? && branch.value in a.branches
    ensures Rotated(s, Rotate(s, c, t, branch, newFamily), c, t, a, branch)
  {
    var s' := Rotate(s, c, t, branch, newFamily);
    var row := s'.sessions[t.session];
    var access := Token(Access, row.user, t.session, row.family, s.nextId + 2, row.tenant, branch, s.now + c.accessSeconds, t.remember);
    var refresh := Token(Refresh, row.user, t.session, row.family, row.jti, row.tenant, branch, row.expires, t.remember);
    assert s'.issued == s.issued + {access, refresh};
    assert access !in s.issued && refresh !in s.issued;
    assert IsNew(s, s', access) && IsNew(s, s', refresh);
  }

  /** A switch goes through exactly when the account belongs to a business and may act in
      the chosen branch. Then it hands out tokens for that branch, and the access token
      resolves to it at once; otherwise nothing changes. */
  lemma {:induction false} SwitchBegins(c: Settings, xs: seq<Action>, t: Token, a: Account, to: Id)
    requires Judge(RunFrom(START, c, xs), t, a) == Accepted
    ensures var s := RunFrom(START, c, xs);
            var (s', v) := SwitchStep(s, c, t, a, to);
            && (v == Accepted <==> a.tenant.Some? && to in a.branches)
            && (v == Accepted ==> Rotated(s, s', c, t, a, Some(to)))
            && (v != Accepted ==> v == (if a.tenant.None? then TenantRequired else BranchForbidden) && s' == s)
  {
    var s := RunFrom(START, c, xs);
    RunKeepsInv(START, c, xs);
    if SwitchStep(s, c, t, a, to).1 == Accepted {
      RotateRotates(s, c, t, a, Some(to), true);
    }
  }

  /** A plain refresh keeps the token's branch; a token without one gets the account's
      home, and failing that its fallback. It goes through exactly when the account may
      still act there, and then the new access token resolves at once. */
  lemma {:induction false} RefreshKeepsBranch(c: Settings, xs: seq<Action>, t: Token, a: Account)
    requires Judge(RunFrom(START, c, xs), t, a) == Accepted
    ensures var s := RunFrom(START, c, xs);
            var (s', v) := RefreshStep(s, c, t, a);
            var branch := if a.tenant.None? then None else if t.branch.Some? then t.branch
                          else if a.home.Some? then a.home else a.fallback;
            && (v == Accepted <==> if a.tenant.None? then t.branch.None? else branch.Some? && branch.value in a.branches)
            && (v == Accepted ==> Rotated(s, s', c, t, a, branch))
            && (v != Accepted ==> v == BranchForbidden && s' == s)
  {
    var s := RunFrom(START, c, xs);
    RunKeepsInv(START, c, xs);
    if RefreshStep(s, c, t, a).1 == Accepted {
      RotateRotates(s, c, t, a, RefreshBranch(t, a).value, false);
    }
  }

  /** A refresh token is accepted if and only if it is valid, was never redeemed, its
      session stands, and its account may act. */
  lemma {:induction false} AcceptedExactly(c: Settings, xs: seq<Action>, t: Token, a: Account)
    ensures var s := RunFrom(START, c, xs);
            Judge(s, t, a) == Accepted <==>
              && t in s.issued && t.kind == Refresh && t.expires > s.now - 30 && t.jti !in s.redeemed
              && t.session in s.sessions
              && var row := s.sessions[t.session];
              && row.user == t.user && row.family == t.family && !row.revoked && row.expires > s.now
              && a.active && row.tenant == t.tenant == a.tenant && (a.tenant.Some? ==> a.tenantActive)
  {
    RunKeepsInv(START, c, xs);
  }

  // ----- acting with an access token -----

  /** A grant that serves this token and account in this branch. */
  predicate Serves(s: State, g: Grant, t: Token, a: Account, branch: Option<Id>) {
    && g in s.grants && !g.revoked && g.expires > s.now
    && g.session == t.session && g.family == t.family && g.user == t.user
    && g.tenant == a.tenant && g.branch == branch && g.authority == a.authority
  }

  lemma {:induction false} FoundServes(s: State, grants: seq<Grant>, t: Token, a: Account, branch: Option<Id>)
    requires forall g <- grants :: g in s.grants
    ensures var found := FindGrant(s, grants, t, a, branch);
            && (found.Some? ==> Serves(s, found.value, t, a, branch))
            && (found.None? ==> forall g <- grants :: !Serves(s, g, t, a, branch))
  {
    if grants != [] {
      FoundServes(s, grants[..|grants| - 1], t, a, branch);
    }
  }

  /** An access token resolves if and only if it is valid, its session stands, and its
      account may act in its branch, or at home if it names none. The caller is then that
      user there, with the account's permissions, and a manager also with the grant that
      serves, if there is one. */
  lemma {:induction false} ResolvedExactly(s: State, t: Token, a: Account)
    ensures var branch := if t.branch.Some? then t.branch else a.home;
            && (Resolve(s, t, a).Some? <==>
                  && t in s.issued && t.kind == Access && t.expires > s.now - 30
                  && t.session in s.sessions
                  && var row := s.sessions[t.session];
                  && row.user == t.user && row.family == t.family && !row.revoked && row.expires > s.now
                  && row.tenant == t.tenant == a.tenant && MayAct(a, branch))
            && (Resolve(s, t, a).Some? ==>
                  var i := Resolve(s, t, a).value;
                  && i.user == t.user && i.session == t.session && i.family == t.family && i.tenant == a.tenant
                  && i.branch == branch && i.permissions == a.permissions && i.management == a.management
                  && (i.grant.Some? <==> a.management && exists g :: Serves(s, g, t, a, branch))
                  && (i.grant.Some? ==> Serves(s, i.grant.value, t, a, branch)))
  {
    FoundServes(s, s.grants, t, a, OrElse(t.branch, a.home));
  }

  // ----- the branch over runs -----

  /** This request switches the session's branch. */
  predicate Switches(s: State, c: Settings, x: Action, id: Id) {
    x.DoSwitch? && x.token.session == id && SwitchStep(s, c, x.token, x.account, x.to).1 == Accepted
  }

  predicate NoSwitch(s: State, c: Settings, xs: seq<Action>, id: Id) {
    forall i :: 0 <= i < |xs| ==> !Switches(RunFrom(s, c, xs[..i]), c, xs[i], id)
  }

  /** Every token of the session but the earlier ones carries the branch, and no earlier
      one is of the session's family. */
  ghost predicate Carries(earlier: set<Token>, s: State, id: Id, to: Id) {
    && id in s.sessions && s.sessions[id].tenant.Some?
    && (forall n <- s.issued :: n.session == id && n !in earlier ==> n.branch == Some(to))
    && (forall n <- earlier :: n.session == id ==> n.family != s.sessions[id].family)
  }

  lemma {:induction false} SwitchCarries(s: State, c: Settings, t: Token, a: Account, to: Id)
    requires Inv(s) && SwitchStep(s, c, t, a, to).1 == Accepted
    ensures Carries(s.issued, SwitchStep(s, c, t, a, to).0, t.session, to)
  {
    RotateRotates(s, c, t, a, Some(to), true);
    forall n <- SwitchStep(s, c, t, a, to).0.issued | n.session == t.session && n !in s.issued ensures n.branch == Some(to) {
      assert IsNew(s, SwitchStep(s, c, t, a, to).0, n);
    }
  }

  lemma {:induction false} RefreshCarries(earlier: set<Token>, s: State, c: Settings, t: Token, a: Account, id: Id, to: Id)
    requires Inv(s) && Carries(earlier, s, id, to)
    ensures Carries(earlier, RefreshStep(s, c, t, a).0, id, to)
  {
    if RefreshStep(s, c, t, a).1 == Accepted && t.session == id {
      assert t in s.issued && t !in earlier;
    }
  }

  lemma {:induction false} StepCarries(earlier: set<Token>, s: State, c: Settings, x: Action, id: Id, to: Id)
    requires Inv(s) && Carries(earlier, s, id, to) && !Switches(s, c, x, id)
    ensures Carries(earlier, Step(s, c, x), id, to)
  {
    match x
    case DoRefresh(t, a) => RefreshCarries(earlier, s, c, t, a, id, to);
    case DoLogout(refresh, access) => LogoutTargetExists(s, Candidates(refresh, access));
    case _ =>
  }

  lemma {:induction false} RunCarries(earlier: set<Token>, s: State, c: Settings, xs: seq<Action>, id: Id, to: Id)
    requires Inv(s) && Carries(earlier, s, id, to) && NoSwitch(s, c, xs, id)
    ensures Inv(RunFrom(s, c, xs)) && Carries(earlier, RunFrom(s, c, xs), id, to)
  {
    RunKeepsInv(s, c, xs);
    if xs != [] {
      var init := xs[..|xs| - 1];
      forall i | 0 <= i < |init| ensures !Switches(RunFrom(s, c, init[..i]), c, init[i], id) {
        assert init[..i] == xs[..i];
      }
      RunCarries(earlier, s, c, init, id, to);
      StepCarries(earlier, RunFrom(s, c, init), c, xs[|xs| - 1], id, to);
    }
  }

  /** From an accepted switch until the session's next one, whatever else happens, every
      token issued for the session carries the chosen branch, and a refresh goes through
      for as long as the branch stays accessible. */
  lemma {:induction false} SwitchLasts(c: Settings, xs: seq<Action>, t: Token, a: Account, to: Id, later: seq<Action>)
    requires SwitchStep(RunFrom(START, c, xs), c, t, a, to).1 == Accepted
    requires NoSwitch(SwitchStep(RunFrom(START, c, xs), c, t, a, to).0, c, later, t.session)
    ensures var before := RunFrom(START, c, xs);
            var s := RunFrom(SwitchStep(before, c, t, a, to).0, c, later);
            && (forall n <- s.issued :: n.session == t.session && n !in before.issued ==> n.branch == Some(to))
            && (forall n: Token, b: Account :: n.session == t.session && Judge(s, n, b) == Accepted ==>
                  (RefreshStep(s, c, n, b).1 == Accepted <==> to in b.branches))
  {
    var before := RunFrom(START, c, xs);
    RunKeepsInv(START, c, xs);
    SwitchCarries(before, c, t, a, to);
    StepKeepsInv(before, c, DoSwitch(t, a, to));
    var first := SwitchStep(before, c, t, a, to).0;
    RunCarries(before.issued, first, c, later, t.session, to);
    CarriedRefreshes(before.issued, RunFrom(first, c, later), c, t.session, to);
  }

  lemma {:induction false} CarriedRefreshes(earlier: set<Token>, s: State, c: Settings, id: Id, to: Id)
    requires Carries(earlier, s, id, to)
    ensures forall n: Token, b: Account :: n.session == id && Judge(s, n, b) == Accepted ==>
              (RefreshStep(s, c, n, b).1 == Accepted <==> to in b.branches)
  {
    forall n: Token, b: Account | n.session == id && Judge(s, n, b) == Accepted
      ensures RefreshStep(s, c, n, b).1 == Accepted <==> to in b.branches
    {
      assert n in s.issued && n !in earlier && n.branch == Some(to);
    }
  }

  // ----- logout -----

  /** A credential that a logout goes by: valid, and of its session's current family. */
  predicate Names(s: State, credential: Option<Token>, kind: Kind) {
    && credential.Some?
    && var t := credential.value;
    && t in s.issued && t.kind == kind && t.expires > s.now - 30
    && t.session in s.sessions && s.sessions[t.session].user == t.user && s.sessions[t.session].family == t.family
  }

  /** The session that a logout with these credentials is about. */
  function Ended(s: State, refresh: Option<Token>, access: Option<Token>): Option<Id> {
    if Names(s, refresh, Refresh) then Some(refresh.value.session)
    else if Names(s, access, Access) then Some(access.value.session) else None
  }

  lemma {:induction false} LogoutRevokes(s: State, c: Settings, refresh: Option<Token>, access: Option<Token>)
    ensures var s' := Step(s, c, DoLogout(refresh, access));
            && (Ended(s, refresh, access).None? ==> s' == s)
            && (forall id <- s.sessions :: Some(id) != Ended(s, refresh, access) ==> id in s'.sessions && s'.sessions[id] == s.sessions[id])
            && (Ended(s, refresh, access).Some? ==> Revoked(s', Ended(s, refresh, access).value))
  {
    LogoutTargetIs(s, refresh, access);
    LogoutTargetExists(s, Candidates(refresh, access));
  }

  /** A logout ends the session of the refresh token, or else that of the access token,
      for good: from then on none of its tokens resolves or refreshes. If neither names
      a session nothing changes, and no other session does in any case. */
  lemma {:induction false} LogoutEnds(c: Settings, xs: seq<Action>, refresh: Option<Token>, access: Option<Token>, later: seq<Action>)
    ensures var s := RunFrom(START, c, xs);
            var s' := Step(s, c, DoLogout(refresh, access));
            var ended := Ended(s, refresh, access);
            && (ended.None? ==> s' == s)
            && (forall id <- s.sessions :: Some(id) != ended ==> id in s'.sessions && s'.sessions[id] == s.sessions[id])
            && (ended.Some? ==> forall u: Token, b: Account :: u.session == ended.value ==>
                  Resolve(RunFrom(s', c, later), u, b).None? && Judge(RunFrom(s', c, later), u, b) != Accepted)
  {
    var s := RunFrom(START, c, xs);
    RunKeepsInv(START, c, xs);
    LogoutRevokes(s, c, refresh, access);
    var s' := Step(s, c, DoLogout(refresh, access));
    if Ended(s, refresh, access).Some? {
      StepKeepsInv(s, c, DoLogout(refresh, access));
      DeadAndRevokedStay(s', c, later, Ended(s, refresh, access).value, 0);
      RevokedIsUseless(RunFrom(s', c, later), Ended(s, refresh, access).value);
    }
  }

  lemma {:induction false} RevokedIsUseless(s: State, id: Id)
    requires Revoked(s, id)
    ensures forall u: Token, b: Account :: u.session == id ==> Resolve(s, u, b).None? && Judge(s, u, b) != Accepted
  {
  }

  lemma {:induction false} LogoutTargetIs(s: State, refresh: Option<Token>, access: Option<Token>)
    ensures LogoutTarget(s, Candidates(refresh, access)) == Ended(s, refresh, access)
  {
    var second: seq<(Token, Kind)> := if access.Some? then [(access.value, Access)] else [];
    SecondTarget(s, access);
    if refresh.Some? {
      assert Candidates(refresh, access)[1..] == second;
    } else {
      assert Candidates(refresh, access) == second;
    }
  }

  lemma {:induction false} SecondTarget(s: State, access: Option<Token>)
    ensures LogoutTarget(s, if access.Some? then [(access.value, Access)] else []) ==
            if Names(s, access, Access) then Some(access.value.session) else None
  {
    if access.Some? {
      assert [(access.value, Access)][1..] == [];
    }
  }

  // ----- panels -----

  /** The caller that an access token resolves to asks for a panel, and gets it. */
  predicate Enters(s: State, x: Action, u: Token, a: Account) {
    && Resolve(s, u, a).Some?
    && match x
       case DoSelect(i, panel, account) =>
         i == Resolve(s, u, a).value && account == a && s.sessions[u.session].staff
         && i.management && i.tenant.Some? && i.branch.Some?
         && (if panel == Waiter then {"orders.create"} else {"payments.manage", "cashier.shift.manage"}) <= i.permissions
       case DoAuthorize(i, panel, account, limited, valid) =>
         i == Resolve(s, u, a).value && account == a && !limited && valid
         && i.management && i.tenant.Some? && i.branch.Some?
         && (if panel == Waiter then "orders.create" else "payments.manage") in i.permissions
       case _ => false
  }

  /** A panel request: its access token is resolved, then the caller acts. */
  function Asked(s: State, c: Settings, u: Token, a: Account, x: Action): State {
    Step(Step(s, c, DoResolve(u, a)), c, x)
  }

  lemma {:induction false} ResolvingIsRemembered(s: State, c: Settings, u: Token, a: Account)
    requires Resolve(s, u, a).Some?
    ensures var s' := Step(s, c, DoResolve(u, a));
            && s' == s.(resolved := s.resolved + {Resolve(s, u, a).value})
            && Resolve(s', u, a) == Resolve(s, u, a)
  {
    SameGrants(s, s.(resolved := s.resolved + {Resolve(s, u, a).value}), s.grants, u, a, OrElse(u.branch, a.home));
  }

  lemma {:induction false} SameGrants(s: State, s': State, grants: seq<Grant>, t: Token, a: Account, branch: Option<Id>)
    requires s.now == s'.now
    ensures FindGrant(s, grants, t, a, branch) == FindGrant(s', grants, t, a, branch)
  {
    if grants != [] {
      SameGrants(s, s', grants[..|grants| - 1], t, a, branch);
    }
  }

  /** Whoever asks without being entitled to gets nothing and loses nothing, and so does
      whoever was never resolved. */
  lemma {:induction false} OthersAreRefused(s: State, c: Settings, x: Action, u: Token, a: Account)
    requires Resolve(s, u, a).Some? && (x.DoSelect? || x.DoAuthorize?)
    requires x.identity == Resolve(s, u, a).value && x.account == a && !Enters(s, x, u, a)
    ensures Asked(s, c, u, a, x) == Step(s, c, DoResolve(u, a))
  {
    ResolvingIsRemembered(s, c, u, a);
  }

  lemma {:induction false} StrangersChangeNothing(s: State, c: Settings, x: Action)
    requires (x.DoSelect? || x.DoAuthorize? || x.DoLeave?) && x.identity !in s.resolved
    ensures Step(s, c, x) == s
  {
  }

  lemma {:induction false} NewestGrantIsFound(s: State, grants: seq<Grant>, g: Grant, t: Token, a: Account, branch: Option<Id>)
    requires forall earlier <- grants :: earlier.session == t.session ==> earlier.revoked
    ensures FindGrant(s, grants + [g], t, a, branch) == if GrantFits(s, g, t, a, branch) then Some(g) else None
  {
    assert (grants + [g])[..|grants|] == grants;
    RevokedAreNotFound(s, grants, t, a, branch);
  }

  lemma {:induction false} RevokedAreNotFound(s: State, grants: seq<Grant>, t: Token, a: Account, branch: Option<Id>)
    requires forall g <- grants :: g.session == t.session ==> g.revoked
    ensures FindGrant(s, grants, t, a, branch).None?
  {
    GrantOfFamily(s, grants, t, a, branch);
  }

  /** When a grant entered this way runs out. */
  function GrantEnds(s: State, x: Action, u: Token): int
    requires u.session in s.sessions
  {
    if x.DoSelect? then s.sessions[u.session].expires else s.now + 600
  }

  lemma {:induction false} EnteringAdds(s: State, c: Settings, x: Action, u: Token, a: Account)
    requires Enters(s, x, u, a) && Resolve(s, u, a).value in s.resolved
    ensures var i := Resolve(s, u, a).value;
            Step(s, c, x) == s.(grants := RevokeGrants(s.grants, u.session)
              + [Grant(u.session, i.user, i.tenant, i.branch, i.family, x.panel, a.authority, false, GrantEnds(s, x, u))])
  {
  }

  lemma {:induction false} EnteredIsFound(s: State, c: Settings, x: Action, u: Token, a: Account, wait: nat)
    requires Enters(s, x, u, a) && Resolve(s, u, a).value in s.resolved
    ensures var s' := Step(Step(s, c, x), c, Pass(wait));
            Resolve(s', u, a).Some? ==>
              var grant := Resolve(s', u, a).value.grant;
              && (grant.Some? <==> GrantEnds(s, x, u) > s.now + wait)
              && (grant.Some? ==> grant.value.panel == x.panel && grant.value.branch == Resolve(s', u, a).value.branch)
  {
    var i := Resolve(s, u, a).value;
    var g := Grant(u.session, i.user, i.tenant, i.branch, i.family, x.panel, a.authority, false, GrantEnds(s, x, u));
    RevokedGrants(s.grants, u.session);
    EnteringAdds(s, c, x, u, a);
    var s' := Step(Step(s, c, x), c, Pass(wait));
    NewestGrantIsFound(s', RevokeGrants(s.grants, u.session), g, u, a, OrElse(u.branch, a.home));
  }

  /** Entering a panel puts a grant for it in force, and for nothing else: selected by a
      staff session it lasts as long as the session does, authorised with a password ten
      minutes, while the caller's token still resolves. */
  lemma {:induction false} EnteringGrants(c: Settings, xs: seq<Action>, x: Action, u: Token, a: Account, wait: nat)
    requires Enters(RunFrom(START, c, xs), x, u, a)
    ensures var s := RunFrom(START, c, xs);
            var s' := Step(Asked(s, c, u, a, x), c, Pass(wait));
            Resolve(s', u, a).Some? ==>
              var grant := Resolve(s', u, a).value.grant;
              && (grant.Some? <==> (if x.DoSelect? then s.sessions[u.session].expires else s.now + 600) > s.now + wait)
              && (grant.Some? ==> grant.value.panel == x.panel && grant.value.branch == Resolve(s', u, a).value.branch)
  {
    var s := RunFrom(START, c, xs);
    ResolvingIsRemembered(s, c, u, a);
    EnteredIsFound(Step(s, c, DoResolve(u, a)), c, x, u, a, wait);
  }

  /** Leaving takes every grant of the session out of force. */
  lemma {:induction false} LeavingEndsGrants(c: Settings, xs: seq<Action>, u: Token, a: Account, v: Token, b: Account)
    requires Resolve(RunFrom(START, c, xs), u, a).Some? && v.session == u.session
    ensures var s := RunFrom(START, c, xs);
            var s' := Asked(s, c, u, a, DoLeave(Resolve(s, u, a).value));
            Resolve(s', v, b).Some? ==> Resolve(s', v, b).value.grant.None?
  {
    var s := RunFrom(START, c, xs);
    ResolvingIsRemembered(s, c, u, a);
    RevokedGrants(s.grants, u.session);
    RevokedAreNotFound(Asked(s, c, u, a, DoLeave(Resolve(s, u, a).value)), RevokeGrants(s.grants, u.session), v, b, OrElse(v.branch, b.home));
  }
}
