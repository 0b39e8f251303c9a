/** Login sessions, refresh-token rotation, branch switching and operation grants.
    Tokens are their signed claims: only issued ones pass the signature check.
    Identifiers from `uuid4` are fresh, and the stored hash of a refresh id stands
    for the id itself. */
module Sessions {
  import opened Wrappers

  type Id = nat

  const LEEWAY := 30
  const SUPPORT_GRANT_SECONDS := 600

  datatype Settings = Settings(accessSeconds: nat, rememberSeconds: nat, sessionSeconds: nat)

  datatype Kind = Access | Refresh

  datatype Token = Token(
    kind: Kind, user: Id, session: Id, family: Id, jti: Id,
    tenant: Option<Id>, branch: Option<Id>, expires: int, remember: bool)

  datatype Session = Session(
    user: Id, tenant: Option<Id>, family: Id, jti: Id, revoked: bool, expires: int, staff: bool)

  datatype Panel = Waiter | Cashier

  datatype Grant = Grant(
    session: Id, user: Id, tenant: Option<Id>, branch: Option<Id>, family: Id, panel: Panel, authority: Id,
    revoked: bool, expires: int)

  /** What the user, role, tenant and branch tables say when a request looks. */
  datatype Account = Account(
    active: bool, tenant: Option<Id>, tenantActive: bool,
    home: Option<Id>, branches: set<Id>, fallback: Option<Id>,
    management: bool, permissions: set<string>, authority: Id)

  /** The caller an access token was resolved to, with the grant then in force. */
  datatype Identity = Identity(
    user: Id, session: Id, family: Id, tenant: Option<Id>, branch: Option<Id>,
    management: bool, permissions: set<string>, grant: Option<Grant>)

  /** `issued`, `redeemed` and `resolved` record the history: every token signed,
      every refresh id exchanged, and every identity a request was given. */
  datatype State = State(
    now: int, nextId: Id, sessions: map<Id, Session>, grants: seq<Grant>,
    issued: set<Token>, redeemed: seq<Id>, resolved: set<Identity>)

  datatype Verdict =
    | Accepted | InvalidToken | SessionRevoked | TokenReuse | AccountInactive | InvalidTenant
    | TenantInactive | TenantRequired | BranchForbidden

  // ----- reading tokens -----

  predicate Decodes(s: State, t: Token, kind: Kind) {
    t in s.issued && t.kind == kind && t.expires > s.now - LEEWAY
  }

  /** The session row still stands behind these claims. */
  predicate Stands(s: State, t: Token) {
    && t.session in s.sessions
    && var row := s.sessions[t.session];
    row.user == t.user && row.family == t.family && !row.revoked && row.expires > s.now
  }

  /** `_load_refresh_session`. */
  function Judge(s: State, t: Token, a: Account): Verdict {
    if !Decodes(s, t, Refresh) then InvalidToken
    else if !Stands(s, t) then SessionRevoked
    else if s.sessions[t.session].jti != t.jti then TokenReuse
    else if !a.active then AccountInactive
    else if s.sessions[t.session].tenant != a.tenant || t.tenant != a.tenant then InvalidTenant
    else if a.tenant.Some? && !a.tenantActive then TenantInactive
    else Accepted
  }

  function OrElse(x: Option<Id>, y: Option<Id>): Option<Id> {
    if x.Some? then x else y
  }

  /** `_resolve_refresh_branch` for a plain refresh. */
  function RefreshBranch(t: Token, a: Account): Option<Option<Id>> {
    if a.tenant.None? then if t.branch.Some? then None else Some(None)
    else
      var selected := OrElse(OrElse(t.branch, a.home), a.fallback);
      if selected.Some? && selected.value in a.branches then Some(selected) else None
  }

  // ----- changing the session -----

  function Lifetime(c: Settings, remember: bool): nat {
    if remember then c.rememberSeconds else c.sessionSeconds
  }

  function Pair(s: State, c: Settings, id: Id, row: Session, branch: Option<Id>, remember: bool, accessJti: Id): set<Token> {
    {Token(Access, row.user, id, row.family, accessJti, row.tenant, branch, s.now + c.accessSeconds, remember),
     Token(Refresh, row.user, id, row.family, row.jti, row.tenant, branch, row.expires, remember)}
  }

  /** `issue_token_pair`: a new session with its own family. */
  function Login(s: State, c: Settings, user: Id, a: Account, branch: Option<Id>, staff: bool, remember: bool): State {
    var id := s.nextId;
    var row := Session(user, a.tenant, s.nextId + 1, s.nextId + 2, false, s.now + Lifetime(c, remember), staff);
    s.(nextId := s.nextId + 4,
       sessions := s.sessions[id := row],
       issued := s.issued + Pair(s, c, id, row, branch, remember, s.nextId + 3))
  }

  /** `_rotate_session_tokens`. */
  function Rotate(s: State, c: Settings, t: Token, branch: Option<Id>, newFamily: bool): State
    requires t.session in s.sessions
  {
    var previous := s.sessions[t.session];
    var row := previous.(
      family := if newFamily then s.nextId else previous.family,
      jti := s.nextId + 1,
      expires := s.now + Lifetime(c, t.remember));
    s.(nextId := s.nextId + 3,
       sessions := s.sessions[t.session := row],
       issued := s.issued + Pair(s, c, t.session, row, branch, t.remember, s.nextId + 2),
       redeemed := s.redeemed + [t.jti])
  }

  /** Only detected reuse is committed; every other refusal rolls back. */
  function Refused(s: State, t: Token, v: Verdict): State {
    if v.TokenReuse? && t.session in s.sessions
    then s.(sessions := s.sessions[t.session := s.sessions[t.session].(revoked := true)])
    else s
  }

  /** `POST /refresh`. */
  function RefreshStep(s: State, c: Settings, t: Token, a: Account): (State, Verdict) {
    var v := Judge(s, t, a);
    if !v.Accepted? then (Refused(s, t, v), v)
    else
      match RefreshBranch(t, a)
      case None => (s, BranchForbidden)
      case Some(branch) => (Rotate(s, c, t, branch, false), Accepted)
  }

  /** `POST /switch-branch`. */
  function SwitchStep(s: State, c: Settings, t: Token, a: Account, branch: Id): (State, Verdict) {
    var v := Judge(s, t, a);
    if !v.Accepted? then (Refused(s, t, v), v)
    else if a.tenant.None? then (s, TenantRequired)
    else if branch !in a.branches then (s, BranchForbidden)
    else (Rotate(s, c, t, Some(branch), true), Accepted)
  }

  /** `_find_logout_session`: the first usable credential, current id or not. */
  function LogoutTarget(s: State, candidates: seq<(Token, Kind)>): Option<Id> {
    if candidates == [] then None
    else if Decodes(s, candidates[0].0, candidates[0].1) && Owns(s, candidates[0].0)
    then Some(candidates[0].0.session)
    else LogoutTarget(s, candidates[1..])
  }

  /** The refresh token is tried before the bearer token. */
  function Candidates(refresh: Option<Token>, access: Option<Token>): seq<(Token, Kind)> {
    (if refresh.Some? then [(refresh.value, Refresh)] else [])
    + if access.Some? then [(access.value, Access)] else []
  }

  predicate Owns(s: State, t: Token) {
    && t.session in s.sessions
    && s.sessions[t.session].user == t.user && s.sessions[t.session].family == t.family
  }

  lemma {:induction false} LogoutTargetExists(s: State, candidates: seq<(Token, Kind)>)
    ensures LogoutTarget(s, candidates).Some? ==> LogoutTarget(s, candidates).value in s.sessions
  {
    if candidates != [] {
      LogoutTargetExists(s, candidates[1..]);
    }
  }

  function Logout(s: State, refresh: Option<Token>, access: Option<Token>): State {
    match LogoutTarget(s, Candidates(refresh, access))
    case None => s
    case Some(id) =>
      LogoutTargetExists(s, Candidates(refresh, access));
      s.(sessions := s.sessions[id := s.sessions[id].(revoked := true)])
  }

  // ----- acting with an access token -----

  predicate GrantFits(s: State, g: Grant, t: Token, a: Account, branch: Option<Id>) {
    && g.session == t.session && g.user == t.user && g.tenant == a.tenant && g.branch == branch
    && g.family == t.family && g.authority == a.authority && !g.revoked && g.expires > s.now
  }

  /** The newest fitting grant. */
  function FindGrant(s: State, grants: seq<Grant>, t: Token, a: Account, branch: Option<Id>): Option<Grant> {
    if grants == [] then None
    else if GrantFits(s, grants[|grants| - 1], t, a, branch) then Some(grants[|grants| - 1])
    else FindGrant(s, grants[..|grants| - 1], t, a, branch)
  }

  /** `get_current_identity`. */
  function Resolve(s: State, t: Token, a: Account): Option<Identity> {
    if !Decodes(s, t, Access) || !a.active || a.tenant != t.tenant || !Stands(s, t) then None
    else if s.sessions[t.session].tenant != a.tenant || (a.tenant.Some? && !a.tenantActive) then None
    else
      var branch := OrElse(t.branch, a.home);
      if a.tenant.Some? && (branch.None? || branch.value !in a.branches) then None
      else Some(Identity(t.user, t.session, t.family, a.tenant, branch, a.management, a.permissions,
                         if a.management then FindGrant(s, s.grants, t, a, branch) else None))
  }

  function RevokeGrants(grants: seq<Grant>, session: Id): seq<Grant> {
    if grants == [] then []
    else
      var g := grants[0];
      [if g.session == session then g.(revoked := true) else g] + RevokeGrants(grants[1..], session)
  }

  /** Entering a panel replaces whatever grant the session had. */
  function Enter(s: State, i: Identity, panel: Panel, authority: Id, expires: int): State {
    s.(grants := RevokeGrants(s.grants, i.session)
                 + [Grant(i.session, i.user, i.tenant, i.branch, i.family, panel, authority, false, expires)])
  }

  predicate MayEnter(i: Identity) {
    i.management && i.tenant.Some? && i.branch.Some?
  }

  /** The permissions that choosing a panel takes, and those that authorising one does. */
  function SelectionNeeds(panel: Panel): set<string> {
    if panel == Waiter then {"orders.create"} else {"payments.manage", "cashier.shift.manage"}
  }

  function AuthorizationNeeds(panel: Panel): set<string> {
    if panel == Cashier then {"payments.manage"} else {"orders.create"}
  }

  predicate MaySelect(i: Identity, panel: Panel) {
    MayEnter(i) && SelectionNeeds(panel) <= i.permissions
  }

  /** `limited` is the verdict of the sliding window on failed attempts. */
  predicate MayAuthorize(i: Identity, panel: Panel, limited: bool, credentialsValid: bool) {
    MayEnter(i) && AuthorizationNeeds(panel) <= i.permissions && !limited && credentialsValid
  }

  // ----- runs -----

  /** Requests in the order their transactions take the session row. A panel
      request acts on an identity resolved at some earlier moment. */
  datatype Action =
    | DoLogin(user: Id, account: Account, branch: Option<Id>, staff: bool, remember: bool)
    | DoRefresh(token: Token, account: Account)
    | DoSwitch(token: Token, account: Account, to: Id)
    | DoLogout(refresh: Option<Token>, access: Option<Token>)
    | DoResolve(token: Token, account: Account)
    | DoSelect(identity: Identity, panel: Panel, account: Account)
    | DoAuthorize(identity: Identity, panel: Panel, account: Account, limited: bool, credentialsValid: bool)
    | DoLeave(identity: Identity)
    | Pass(seconds: nat)

  function Step(s: State, c: Settings, x: Action): State {
    match x
    case DoLogin(user, a, branch, staff, remember) => Login(s, c, user, a, branch, staff, remember)
    case DoRefresh(t, a) => RefreshStep(s, c, t, a).0
    case DoSwitch(t, a, to) => SwitchStep(s, c, t, a, to).0
    case DoLogout(refresh, access) => Logout(s, refresh, access)
    case DoResolve(t, a) =>
      if Resolve(s, t, a).Some? then s.(resolved := s.resolved + {Resolve(s, t, a).value}) else s
    case DoSelect(i, panel, a) =>
      if i in s.resolved && MaySelect(i, panel) && i.session in s.sessions && s.sessions[i.session].staff
      then Enter(s, i, panel, a.authority, s.sessions[i.session].expires) else s
    case DoAuthorize(i, panel, a, limited, valid) =>
      if i in s.resolved && MayAuthorize(i, panel, limited, valid)
      then Enter(s, i, panel, a.authority, s.now + SUPPORT_GRANT_SECONDS) else s
    case DoLeave(i) =>
      if i in s.resolved then s.(grants := RevokeGrants(s.grants, i.session)) else s
    case Pass(seconds) => s.(now := s.now + seconds)
  }

  const START := State(0, 0, map[], [], {}, [], {})

  function RunFrom(s: State, c: Settings, xs: seq<Action>): State {
    if xs == [] then s else Step(RunFrom(s, c, xs[..|xs| - 1]), c, xs[|xs| - 1])
  }

  // ----- the invariant -----

  /** Every identifier in use has been drawn. */
  ghost predicate Drawn(s: State) {
    && (forall id <- s.sessions.Keys :: id < s.nextId && s.sessions[id].family < s.nextId && s.sessions[id].jti < s.nextId)
    && (forall t <- s.issued :: t.session < s.nextId && t.family < s.nextId && t.jti < s.nextId)
    && (forall g <- s.grants :: g.family < s.nextId)
    && (forall i <- s.resolved :: i.family < s.nextId)
    && (forall j <- s.redeemed :: j < s.nextId)
  }

  /** A refresh id is current for one session, or has been redeemed, never both. */
  ghost predicate Rotating(s: State) {
    && (forall x, y :: x in s.sessions && y in s.sessions && x != y ==> s.sessions[x].jti != s.sessions[y].jti)
    && (forall id <- s.sessions.Keys :: s.sessions[id].jti !in s.redeemed)
    && (forall t <- s.issued :: t.session in s.sessions)
    && (forall t <- s.issued :: t.kind == Refresh ==>
          t.jti in s.redeemed || (t.jti == s.sessions[t.session].jti && t.family == s.sessions[t.session].family))
    && (forall i, j :: 0 <= i < j < |s.redeemed| ==> s.redeemed[i] != s.redeemed[j])
  }

  ghost predicate OneGrant(s: State) {
    forall i, j :: 0 <= i < j < |s.grants| && s.grants[i].session == s.grants[j].session ==>
      s.grants[i].revoked || s.grants[j].revoked
  }

  ghost predicate Inv(s: State) {
    Drawn(s) && Rotating(s) && OneGrant(s)
  }

  lemma {:induction false} LoginKeepsDrawn(s: State, c: Settings, user: Id, a: Account, branch: Option<Id>, staff: bool, remember: bool)
    requires Drawn(s)
    ensures Drawn(Login(s, c, user, a, branch, staff, remember))
  {
  }

  lemma {:induction false} LoginKeepsRotating(s: State, c: Settings, user: Id, a: Account, branch: Option<Id>, staff: bool, remember: bool)
    requires Drawn(s) && Rotating(s)
    ensures Rotating(Login(s, c, user, a, branch, staff, remember))
  {
  }

  lemma {:induction false} LoginKeepsInv(s: State, c: Settings, user: Id, a: Account, branch: Option<Id>, staff: bool, remember: bool)
    requires Inv(s)
    ensures Inv(Login(s, c, user, a, branch, staff, remember))
  {
    LoginKeepsDrawn(s, c, user, a, branch, staff, remember);
    LoginKeepsRotating(s, c, user, a, branch, staff, remember);
    assert OneGrant(Login(s, c, user, a, branch, staff, remember));
  }

  lemma {:induction false} RotateKeepsDrawn(s: State, c: Settings, t: Token, branch: Option<Id>, newFamily: bool)
    requires Drawn(s) && t.session in s.sessions && s.sessions[t.session].jti == t.jti
    ensures Drawn(Rotate(s, c, t, branch, newFamily))
  {
  }

  lemma {:induction false} RotateKeepsRotating(s: State, c: Settings, t: Token, branch: Option<Id>, newFamily: bool)
    requires Drawn(s) && Rotating(s) && t.session in s.sessions && s.sessions[t.session].jti == t.jti
    ensures Rotating(Rotate(s, c, t, branch, newFamily))
  {
    var s' := Rotate(s, c, t, branch, newFamily);
    assert t.jti in s'.redeemed && forall j <- s.redeemed :: j in s'.redeemed;
    forall u <- s'.issued | u.kind == Refresh
      ensures u.jti in s'.redeemed
              || (u.jti == s'.sessions[u.session].jti && u.family == s'.sessions[u.session].family)
    {
    }
  }

  lemma {:induction false} RotateKeepsInv(s: State, c: Settings, t: Token, branch: Option<Id>, newFamily: bool)
    requires Inv(s) && t.session in s.sessions && s.sessions[t.session].jti == t.jti
    ensures Inv(Rotate(s, c, t, branch, newFamily))
  {
    RotateKeepsDrawn(s, c, t, branch, newFamily);
    RotateKeepsRotating(s, c, t, branch, newFamily);
    assert OneGrant(Rotate(s, c, t, branch, newFamily));
  }

  lemma {:induction false} RevokedGrants(grants: seq<Grant>, session: Id)
    ensures var after := RevokeGrants(grants, session);
            && |after| == |grants|
            && forall i :: 0 <= i < |grants| ==>
                 after[i] == if grants[i].session == session then grants[i].(revoked := true) else grants[i]
  {
    if grants != [] {
      RevokedGrants(grants[1..], session);
    }
  }

  /** Replacing the list of grants touches nothing else. */
  lemma {:induction false} GrantsKeepInv(s: State, grants: seq<Grant>)
    requires Inv(s) && OneGrant(s.(grants := grants))
    requires forall g <- grants :: g.family < s.nextId
    ensures Inv(s.(grants := grants))
  {
    assert Rotating(s.(grants := grants));
    assert Drawn(s.(grants := grants));
  }

  lemma {:induction false} RevokingKeepsInv(s: State, session: Id)
    requires Inv(s)
    ensures Inv(s.(grants := RevokeGrants(s.grants, session)))
    ensures forall g <- RevokeGrants(s.grants, session) :: g.session == session ==> g.revoked
  {
    RevokedGrants(s.grants, session);
    var left := RevokeGrants(s.grants, session);
    assert forall g <- left :: g.family < s.nextId && (g.session == session ==> g.revoked);
    GrantsKeepInv(s, left);
  }

  lemma {:induction false} GrantingKeepsInv(s: State, g: Grant)
    requires Inv(s) && g.family < s.nextId
    requires forall h <- s.grants :: h.session == g.session ==> h.revoked
    ensures Inv(s.(grants := s.grants + [g]))
  {
    GrantsKeepInv(s, s.grants + [g]);
  }

  lemma {:induction false} EnterKeepsInv(s: State, i: Identity, panel: Panel, authority: Id, expires: int)
    requires Inv(s) && i.family < s.nextId
    ensures Inv(Enter(s, i, panel, authority, expires))
  {
    RevokingKeepsInv(s, i.session);
    GrantingKeepsInv(s.(grants := RevokeGrants(s.grants, i.session)),
                     Grant(i.session, i.user, i.tenant, i.branch, i.family, panel, authority, false, expires));
  }

  lemma {:induction false} RevokeSessionKeepsInv(s: State, id: Id)
    requires Inv(s) && id in s.sessions
    ensures Inv(s.(sessions := s.sessions[id := s.sessions[id].(revoked := true)]))
  {
  }

  lemma {:induction false} RefreshKeepsInv(s: State, c: Settings, t: Token, a: Account)
    requires Inv(s)
    ensures Inv(RefreshStep(s, c, t, a).0)
    ensures forall to :: Inv(SwitchStep(s, c, t, a, to).0)
  {
    var v := Judge(s, t, a);
    if v.TokenReuse? {
      RevokeSessionKeepsInv(s, t.session);
    } else if v.Accepted? {
      if RefreshBranch(t, a).Some? {
        RotateKeepsInv(s, c, t, RefreshBranch(t, a).value, false);
      }
      forall to
        ensures Inv(Rotate(s, c, t, Some(to), true))
      {
        RotateKeepsInv(s, c, t, Some(to), true);
      }
    }
  }

  lemma {:induction false} SelectKeepsInv(s: State, c: Settings, i: Identity, panel: Panel, a: Account)
    requires Inv(s)
    ensures Inv(Step(s, c, DoSelect(i, panel, a)))
  {
    if i in s.resolved && i.session in s.sessions {
      EnterKeepsInv(s, i, panel, a.authority, s.sessions[i.session].expires);
    }
  }

  lemma {:induction false} AuthorizeKeepsInv(s: State, c: Settings, i: Identity, panel: Panel, a: Account, limited: bool, valid: bool)
    requires Inv(s)
    ensures Inv(Step(s, c, DoAuthorize(i, panel, a, limited, valid)))
  {
    if i in s.resolved {
      EnterKeepsInv(s, i, panel, a.authority, s.now + SUPPORT_GRANT_SECONDS);
    }
  }

  lemma {:induction false} LeaveKeepsInv(s: State, c: Settings, i: Identity)
    requires Inv(s)
    ensures Inv(Step(s, c, DoLeave(i)))
  {
    RevokingKeepsInv(s, i.session);
  }

  lemma {:induction false} ResolveKeepsInv(s: State, t: Token, a: Account)
    requires Inv(s) && Resolve(s, t, a).Some?
    ensures Inv(s.(resolved := s.resolved + {Resolve(s, t, a).value}))
  {
  }

  lemma {:induction false} StepKeepsInv(s: State, c: Settings, x: Action)
    requires Inv(s)
    ensures Inv(Step(s, c, x))
  {
    match x {
      case DoLogin(user, a, branch, staff, remember) =>
        LoginKeepsInv(s, c, user, a, branch, staff, remember);
      case DoRefresh(t, a) =>
        RefreshKeepsInv(s, c, t, a);
      case DoSwitch(t, a, to) =>
        RefreshKeepsInv(s, c, t, a);
      case DoLogout(refresh, access) =>
        LogoutTargetExists(s, Candidates(refresh, access));
        if LogoutTarget(s, Candidates(refresh, access)).Some? {
          RevokeSessionKeepsInv(s, LogoutTarget(s, Candidates(refresh, access)).value);
        }
      case DoResolve(t, a) =>
        if Resolve(s, t, a).Some? {
          ResolveKeepsInv(s, t, a);
        }
      case DoSelect(i, panel, a) =>
        SelectKeepsInv(s, c, i, panel, a);
      case DoAuthorize(i, panel, a, limited, valid) =>
        AuthorizeKeepsInv(s, c, i, panel, a, limited, valid);
      case DoLeave(i) =>
        LeaveKeepsInv(s, c, i);
      case Pass(_) =>
    }
  }

  lemma {:induction false} RunKeepsInv(s: State, c: Settings, xs: seq<Action>)
    requires Inv(s)
    ensures Inv(RunFrom(s, c, xs))
  {
    if xs != [] {
      RunKeepsInv(s, c, xs[..|xs| - 1]);
      StepKeepsInv(RunFrom(s, c, xs[..|xs| - 1]), c, xs[|xs| - 1]);
    }
  }

  // ----- what the runs promise -----

  /** On every run each refresh token is redeemed at most once. */
  lemma {:induction false} RedeemedAtMostOnce(c: Settings, xs: seq<Action>)
    ensures var s := RunFrom(START, c, xs);
            forall i, j :: 0 <= i < j < |s.redeemed| ==> s.redeemed[i] != s.redeemed[j]
  {
    RunKeepsInv(START, c, xs);
  }

  /** A session's family is replaced only by one never used before. */
  ghost predicate Dead(s: State, id: Id, family: Id) {
    family < s.nextId && id in s.sessions && s.sessions[id].family != family
  }

  ghost predicate Revoked(s: State, id: Id) {
    id in s.sessions && s.sessions[id].revoked
  }

  /** Steps never revive a session, reuse an identifier or return to a family. */
  lemma {:induction false} StepIsForward(s: State, c: Settings, x: Action, id: Id, family: Id)
    requires Inv(s)
    ensures Dead(s, id, family) ==> Dead(Step(s, c, x), id, family)
    ensures Revoked(s, id) ==> Revoked(Step(s, c, x), id)
  {
    match x {
      case DoRefresh(t, a) =>
        assert Judge(s, t, a).Accepted? ==> !Revoked(s, t.session);
      case DoSwitch(t, a, to) =>
        assert Judge(s, t, a).Accepted? ==> !Revoked(s, t.session);
      case _ =>
    }
  }

  lemma {:induction false} DeadAndRevokedStay(s: State, c: Settings, xs: seq<Action>, id: Id, family: Id)
    requires Inv(s)
    ensures Dead(s, id, family) ==> Dead(RunFrom(s, c, xs), id, family)
    ensures Revoked(s, id) ==> Revoked(RunFrom(s, c, xs), id)
  {
    if xs != [] {
      var init := xs[..|xs| - 1];
      DeadAndRevokedStay(s, c, init, id, family);
      RunKeepsInv(s, c, init);
      StepIsForward(RunFrom(s, c, init), c, xs[|xs| - 1], id, family);
    }
  }

  /** Presenting a refresh token that was redeemed before: with the session's
      current family on a live session it is detected and the session is revoked
      for good; otherwise it is refused and nothing changes. */
  lemma {:induction false} ReuseRevokesForGood(c: Settings, xs: seq<Action>, t: Token, a: Account, later: seq<Action>)
    requires var s := RunFrom(START, c, xs); t.jti in s.redeemed && Decodes(s, t, Refresh)
    ensures var s := RunFrom(START, c, xs);
            var (s', v) := RefreshStep(s, c, t, a);
            if Stands(s, t)
            then v == TokenReuse && Revoked(RunFrom(s', c, later), t.session)
            else v == SessionRevoked && s' == s
    ensures var s := RunFrom(START, c, xs);
            forall to :: SwitchStep(s, c, t, a, to) == RefreshStep(s, c, t, a)
  {
    var s := RunFrom(START, c, xs);
    RunKeepsInv(START, c, xs);
    if Stands(s, t) {
      StepKeepsInv(s, c, DoRefresh(t, a));
      DeadAndRevokedStay(RefreshStep(s, c, t, a).0, c, later, t.session, 0);
    }
  }

  /** The other direction: only a redeemed token can trip the detection. */
  lemma {:induction false} OnlyReuseIsDetected(c: Settings, xs: seq<Action>, t: Token, a: Account)
    ensures var s := RunFrom(START, c, xs);
            Judge(s, t, a) == TokenReuse <==> t.jti in s.redeemed && Decodes(s, t, Refresh) && Stands(s, t)
  {
    RunKeepsInv(START, c, xs);
  }

  /** On every run at most one grant of a session is unrevoked. */
  lemma {:induction false} OneGrantPerSession(c: Settings, xs: seq<Action>, i: nat, j: nat)
    requires i < j < |RunFrom(START, c, xs).grants|
    requires RunFrom(START, c, xs).grants[i].session == RunFrom(START, c, xs).grants[j].session
    ensures RunFrom(START, c, xs).grants[i].revoked || RunFrom(START, c, xs).grants[j].revoked
  {
    RunKeepsInv(START, c, xs);
  }

  lemma {:induction false} GrantOfFamily(s: State, grants: seq<Grant>, t: Token, a: Account, branch: Option<Id>)
    ensures var g := FindGrant(s, grants, t, a, branch);
            g.Some? ==> g.value in grants && GrantFits(s, g.value, t, a, branch)
    ensures FindGrant(s, grants, t, a, branch).None? ==> forall g <- grants :: !GrantFits(s, g, t, a, branch)
  {
    if grants != [] {
      GrantOfFamily(s, grants[..|grants| - 1], t, a, branch);
      assert grants == grants[..|grants| - 1] + [grants[|grants| - 1]];
    }
  }

  /** After a switch no earlier token of the session is good for anything. */
  lemma {:induction false} SwitchEndsTokens(s0: State, c: Settings, t: Token, a: Account, to: Id, later: seq<Action>, earlier: Token, b: Account)
    requires Inv(s0) && SwitchStep(s0, c, t, a, to).1 == Accepted
    requires earlier in s0.issued && earlier.session == t.session
    ensures var s := RunFrom(SwitchStep(s0, c, t, a, to).0, c, later);
            Resolve(s, earlier, b).None? && Judge(s, earlier, b) != Accepted
  {
    var s1 := SwitchStep(s0, c, t, a, to).0;
    StepKeepsInv(s0, c, DoSwitch(t, a, to));
    DeadAndRevokedStay(s1, c, later, t.session, earlier.family);
  }

  /** After a switch no grant of an earlier family of the session comes into force. */
  lemma {:induction false} SwitchEndsGrants(s0: State, c: Settings, t: Token, a: Account, to: Id, later: seq<Action>, u: Token, b: Account, g: Grant)
    requires Inv(s0) && SwitchStep(s0, c, t, a, to).1 == Accepted && g.session == t.session
    requires var s := RunFrom(SwitchStep(s0, c, t, a, to).0, c, later);
             Resolve(s, u, b).Some? && Resolve(s, u, b).value.grant == Some(g)
    ensures g.family >= s0.nextId
  {
    var s1 := SwitchStep(s0, c, t, a, to).0;
    var s := RunFrom(s1, c, later);
    StepKeepsInv(s0, c, DoSwitch(t, a, to));
    GrantOfFamily(s, s.grants, u, b, OrElse(u.branch, b.home));
    if g.family < s0.nextId {
      DeadAndRevokedStay(s1, c, later, t.session, g.family);
    }
  }

  /** After a branch switch nothing issued earlier for the session is in force any
      more, now or ever: no access token resolves, no refresh token is accepted,
      and no identity carries a grant made under an earlier family, whether it was
      made before the switch or by a request still holding an old identity. */
  lemma {:induction false} SwitchEndsEverything(c: Settings, xs: seq<Action>, t: Token, a: Account, to: Id, later: seq<Action>, earlier: Token, b: Account)
    requires SwitchStep(RunFrom(START, c, xs), c, t, a, to).1 == Accepted
    requires earlier in RunFrom(START, c, xs).issued && earlier.session == t.session
    ensures var s := RunFrom(SwitchStep(RunFrom(START, c, xs), c, t, a, to).0, c, later);
            && Resolve(s, earlier, b).None?
            && Judge(s, earlier, b) != Accepted
            && forall u: Token, g: Grant ::
                 Resolve(s, u, b).Some? && Resolve(s, u, b).value.grant == Some(g) ==>
                   g.session != t.session || g.family >= RunFrom(START, c, xs).nextId
  {
    var s0 := RunFrom(START, c, xs);
    RunKeepsInv(START, c, xs);
    SwitchEndsTokens(s0, c, t, a, to, later, earlier, b);
    var s := RunFrom(SwitchStep(s0, c, t, a, to).0, c, later);
    forall u: Token, g: Grant |
      Resolve(s, u, b).Some? && Resolve(s, u, b).value.grant == Some(g) && g.session == t.session
      ensures g.family >= s0.nextId
    {
      SwitchEndsGrants(s0, c, t, a, to, later, u, b, g);
    }
  }

  /** A plain refresh keeps every access token that was in force in force, with the
      same identity. */
  lemma {:induction false} RefreshKeepsAccess(s: State, c: Settings, t: Token, a: Account, u: Token, b: Account)
    requires Inv(s) && RefreshStep(s, c, t, a).1 == Accepted
    requires Resolve(s, u, b).Some?
    requires Lifetime(c, t.remember) > 0
    ensures Resolve(RefreshStep(s, c, t, a).0, u, b) == Resolve(s, u, b)
  {
    var s' := RefreshStep(s, c, t, a).0;
    FindGrantFrame(s, s', s.grants, u, b, OrElse(u.branch, b.home));
  }

  lemma {:induction false} FindGrantFrame(s: State, s': State, grants: seq<Grant>, t: Token, a: Account, branch: Option<Id>)
    requires s.now == s'.now
    ensures FindGrant(s, grants, t, a, branch) == FindGrant(s', grants, t, a, branch)
  {
    if grants != [] {
      FindGrantFrame(s, s', grants[..|grants| - 1], t, a, branch);
    }
  }

  // ----- how long access lasts -----

  /** A step that ends what the session's access tokens stand on: an accepted switch, a
      logout, or a detected reuse. */
  predicate Disturbs(s: State, c: Settings, x: Action, id: Id) {
    match x
    case DoRefresh(t, a) => t.session == id && Judge(s, t, a) == TokenReuse
    case DoSwitch(t, a, to) => t.session == id && SwitchStep(s, c, t, a, to).1 in {Accepted, TokenReuse}
    case DoLogout(refresh, access) => LogoutTarget(s, Candidates(refresh, access)) == Some(id)
    case _ => false
  }

  predicate Quiet(s: State, c: Settings, xs: seq<Action>, id: Id) {
    forall i :: 0 <= i < |xs| ==> !Disturbs(RunFrom(s, c, xs[..i]), c, xs[i], id)
  }

  /** What a session's access tokens stand on is still there. */
  predicate Undisturbed(s: State, s': State, id: Id) {
    && id in s.sessions && id in s'.sessions && s.issued <= s'.issued && s.now <= s'.now
    && s'.sessions[id].user == s.sessions[id].user && s'.sessions[id].tenant == s.sessions[id].tenant
    && s'.sessions[id].family == s.sessions[id].family && s'.sessions[id].revoked == s.sessions[id].revoked
  }

  lemma {:induction false} StepUndisturbed(s: State, c: Settings, x: Action, id: Id)
    requires Drawn(s) && id in s.sessions && !Disturbs(s, c, x, id)
    ensures Undisturbed(s, Step(s, c, x), id)
  {
    match x
    case DoLogout(refresh, access) => LogoutTargetExists(s, Candidates(refresh, access));
    case _ =>
  }

  lemma {:induction false} QuietPrefix(s: State, c: Settings, xs: seq<Action>, id: Id)
    requires xs != [] && Quiet(s, c, xs, id)
    ensures Quiet(s, c, xs[..|xs| - 1], id)
    ensures !Disturbs(RunFrom(s, c, xs[..|xs| - 1]), c, xs[|xs| - 1], id)
  {
    var init := xs[..|xs| - 1];
    forall i | 0 <= i < |init| ensures !Disturbs(RunFrom(s, c, init[..i]), c, init[i], id) {
      assert init[..i] == xs[..i];
    }
  }

  lemma {:induction false} QuietRunUndisturbed(s: State, c: Settings, xs: seq<Action>, id: Id)
    requires Inv(s) && id in s.sessions && Quiet(s, c, xs, id)
    ensures Undisturbed(s, RunFrom(s, c, xs), id)
  {
    if xs != [] {
      var init := xs[..|xs| - 1];
      QuietPrefix(s, c, xs, id);
      QuietRunUndisturbed(s, c, init, id);
      RunKeepsInv(s, c, init);
      StepUndisturbed(RunFrom(s, c, init), c, xs[|xs| - 1], id);
    }
  }

  predicate SameCaller(i: Identity, j: Identity) {
    i.(grant := None) == j.(grant := None)
  }

  /** Over any run without a switch, a logout or a reuse of the session, refreshes
      included, an access token in force stays in force, for the same caller, exactly as
      long as neither it nor the session row has expired. */
  lemma {:induction false} AccessLasts(s: State, c: Settings, xs: seq<Action>, u: Token, b: Account)
    requires Inv(s) && Resolve(s, u, b).Some? && Quiet(s, c, xs, u.session)
    ensures var s' := RunFrom(s, c, xs);
            && u.session in s'.sessions
            && (Resolve(s', u, b).Some? <==> s'.now < u.expires + LEEWAY && s'.now < s'.sessions[u.session].expires)
            && (Resolve(s', u, b).Some? ==> SameCaller(Resolve(s', u, b).value, Resolve(s, u, b).value))
  {
    QuietRunUndisturbed(s, c, xs, u.session);
  }

  /** When a token of this kind was issued. */
  function IssuedAt(c: Settings, u: Token): int {
    u.expires - if u.kind == Access then c.accessSeconds else Lifetime(c, u.remember)
  }

  predicate TokenLives(s: State, c: Settings, u: Token) {
    && u.session in s.sessions && IssuedAt(c, u) <= s.now
    && IssuedAt(c, u) + Lifetime(c, u.remember) <= s.sessions[u.session].expires <= s.now + Lifetime(c, u.remember)
  }

  /** A session row lives as long as its tokens' kind of session does, counted from the
      last rotation, and its tokens are all of one kind. */
  ghost predicate Lives(s: State, c: Settings) {
    && (forall u <- s.issued :: TokenLives(s, c, u))
    && (forall u <- s.issued, v <- s.issued :: u.session == v.session ==> u.remember == v.remember)
  }

  lemma {:induction false} LoginLives(s: State, c: Settings, user: Id, a: Account, branch: Option<Id>, staff: bool, remember: bool)
    requires Drawn(s) && Lives(s, c)
    ensures Lives(Login(s, c, user, a, branch, staff, remember), c)
  {
    var s' := Login(s, c, user, a, branch, staff, remember);
    forall u <- s'.issued ensures TokenLives(s', c, u) {
      assert u in s.issued ==> TokenLives(s, c, u);
    }
  }

  lemma {:induction false} RotateLives(s: State, c: Settings, t: Token, branch: Option<Id>, newFamily: bool)
    requires Lives(s, c) && t in s.issued && t.session in s.sessions
    ensures Lives(Rotate(s, c, t, branch, newFamily), c)
  {
    var s' := Rotate(s, c, t, branch, newFamily);
    forall u <- s'.issued ensures TokenLives(s', c, u) {
      assert u in s.issued ==> TokenLives(s, c, u);
    }
    forall u <- s'.issued ensures u.session == t.session ==> u.remember == t.remember {
    }
  }

  lemma {:induction false} StepLives(s: State, c: Settings, x: Action)
    requires Drawn(s) && Lives(s, c)
    ensures Lives(Step(s, c, x), c)
  {
    match x
    case DoLogin(user, a, branch, staff, remember) => LoginLives(s, c, user, a, branch, staff, remember);
    case DoRefresh(t, a) =>
      if Judge(s, t, a).Accepted? && RefreshBranch(t, a).Some? {
        RotateLives(s, c, t, RefreshBranch(t, a).value, false);
      } else {
        RowsLive(s, Step(s, c, x), c);
      }
    case DoSwitch(t, a, to) =>
      if Judge(s, t, a).Accepted? {
        RotateLives(s, c, t, Some(to), true);
      } else {
        RowsLive(s, Step(s, c, x), c);
      }
    case DoLogout(refresh, access) =>
      LogoutTargetExists(s, Candidates(refresh, access));
      RowsLive(s, Step(s, c, x), c);
    case _ =>
      RowsLive(s, Step(s, c, x), c);
  }

  /** Revoking rows, changing grants and letting time pass shorten no row. */
  lemma {:induction false} RowsLive(s: State, s': State, c: Settings)
    requires Lives(s, c) && s'.issued == s.issued && s'.now >= s.now && s.sessions.Keys == s'.sessions.Keys
    requires forall id <- s.sessions.Keys :: s'.sessions[id].expires == s.sessions[id].expires
    ensures Lives(s', c)
  {
    forall u <- s'.issued ensures TokenLives(s', c, u) {
      assert TokenLives(s, c, u);
    }
  }

  lemma {:induction false} RunLives(c: Settings, xs: seq<Action>)
    ensures Lives(RunFrom(START, c, xs), c)
  {
    if xs != [] {
      var init := xs[..|xs| - 1];
      RunLives(c, init);
      RunKeepsInv(START, c, init);
      StepLives(RunFrom(START, c, init), c, xs[|xs| - 1]);
    }
  }

  lemma {:induction false} RunsCompose(s: State, c: Settings, xs: seq<Action>, ys: seq<Action>)
    ensures RunFrom(RunFrom(s, c, xs), c, ys) == RunFrom(s, c, xs + ys)
  {
    if ys == [] {
      assert xs + ys == xs;
    } else {
      var all := xs + ys;
      assert all[..|all| - 1] == xs + ys[..|ys| - 1];
      RunsCompose(s, c, xs, ys[..|ys| - 1]);
    }
  }

  /** Access tokens of such sessions are good until their own expiry and leeway are
      over, whatever quiet run they are used in. */
  ghost predicate AccessIsUnbroken(c: Settings, remember: bool) {
    forall xs: seq<Action>, ys: seq<Action>, u: Token, b: Account ::
      u.remember == remember && Resolve(RunFrom(START, c, xs), u, b).Some? && Quiet(RunFrom(START, c, xs), c, ys, u.session) ==>
        UntilExpiry(RunFrom(RunFrom(START, c, xs), c, ys), u, b)
  }

  predicate UntilExpiry(s: State, u: Token, b: Account) {
    Resolve(s, u, b).Some? <==> s.now < u.expires + LEEWAY
  }

  lemma {:induction false} SessionOutlivesToken(c: Settings, xs: seq<Action>, ys: seq<Action>, u: Token, b: Account)
    requires Resolve(RunFrom(START, c, xs), u, b).Some? && Quiet(RunFrom(START, c, xs), c, ys, u.session)
    requires Lifetime(c, u.remember) == 0 || Lifetime(c, u.remember) >= c.accessSeconds + LEEWAY
    ensures UntilExpiry(RunFrom(RunFrom(START, c, xs), c, ys), u, b)
  {
    var s := RunFrom(START, c, xs);
    RunKeepsInv(START, c, xs);
    RunLives(c, xs);
    assert TokenLives(s, c, u);
    AccessLasts(s, c, ys, u, b);
    QuietRunUndisturbed(s, c, ys, u.session);
    RunLives(c, xs + ys);
    RunsCompose(START, c, xs, ys);
    assert TokenLives(RunFrom(s, c, ys), c, u);
  }

  lemma {:induction false} RunOne(s: State, c: Settings, x: Action)
    ensures RunFrom(s, c, [x]) == Step(s, c, x)
  {
    assert [x][..0] == [];
    assert RunFrom(s, c, []) == s;
  }

  const SOMEBODY := Account(true, None, true, None, {}, None, false, {}, 0)

  /** A session that ends before its access token does: sign in and wait. */
  lemma {:induction false} TokenOutlivesSession(c: Settings, remember: bool)
    requires 0 < Lifetime(c, remember) < c.accessSeconds + LEEWAY
    ensures !AccessIsUnbroken(c, remember)
  {
    var login, wait := DoLogin(0, SOMEBODY, None, false, remember), Pass(Lifetime(c, remember));
    var xs, ys := [login], [wait];
    RunOne(START, c, login);
    RunOne(RunFrom(START, c, xs), c, wait);
    var s := RunFrom(START, c, xs);
    var u := Token(Access, 0, 0, 1, 3, None, None, c.accessSeconds, remember);
    assert u in s.issued;
    assert Resolve(s, u, SOMEBODY).Some?;
    assert Quiet(s, c, ys, u.session);
    assert !UntilExpiry(RunFrom(s, c, ys), u, SOMEBODY);
  }

  /** Access tokens last until their own expiry on every run if and only if sessions
      are set to outlive them, leeway included (or to end at once, so that no token is
      ever in force). */
  lemma {:induction false} AccessLastsUntilExpiry(c: Settings, remember: bool)
    ensures AccessIsUnbroken(c, remember) <==>
            Lifetime(c, remember) == 0 || Lifetime(c, remember) >= c.accessSeconds + LEEWAY
  {
    if 0 < Lifetime(c, remember) < c.accessSeconds + LEEWAY {
      TokenOutlivesSession(c, remember);
    } else {
      forall xs: seq<Action>, ys: seq<Action>, u: Token, b: Account |
        u.remember == remember && Resolve(RunFrom(START, c, xs), u, b).Some? && Quiet(RunFrom(START, c, xs), c, ys, u.session)
        ensures UntilExpiry(RunFrom(RunFrom(START, c, xs), c, ys), u, b)
      {
        SessionOutlivesToken(c, xs, ys, u, b);
      }
    }
  }

  /** A rotation hands out exactly one usable refresh token: the new one is
      accepted, under the claims of the old one, until it expires. */
  lemma {:induction false} RotationContinues(s: State, c: Settings, t: Token, a: Account)
    requires Inv(s) && RefreshStep(s, c, t, a).1 == Accepted && Lifetime(c, t.remember) > 0
    ensures var s' := RefreshStep(s, c, t, a).0;
            && (exists n :: n in s'.issued && n.session == t.session && Judge(s', n, a) == Accepted)
            && forall n: Token, m: Token :: n.session == m.session == t.session && Judge(s', n, a) == Judge(s', m, a) == Accepted
                 ==> n.jti == m.jti
  {
    var s' := RefreshStep(s, c, t, a).0;
    var row := s'.sessions[t.session];
    var n := Token(Refresh, row.user, t.session, row.family, row.jti, row.tenant,
                   RefreshBranch(t, a).value, row.expires, t.remember);
    assert n in s'.issued && Judge(s', n, a) == Accepted;
  }

  /** The tables and the signing key, changed in place by the request handlers. */
  class AuthStore {
    const settings: Settings
    var now: int
    var nextId: Id
    var sessions: map<Id, Session>
    var grants: seq<Grant>
    var issued: set<Token>
    ghost var redeemed: seq<Id>
    ghost var resolved: set<Identity>

    ghost function View(): State
      reads this
    {
      State(now, nextId, sessions, grants, issued, redeemed, resolved)
    }

    constructor (settings: Settings)
      ensures this.settings == settings && View() == START
    {
      this.settings := settings;
      now, nextId, sessions, grants, issued, redeemed, resolved := 0, 0, map[], [], {}, [], {};
    }

    method Uuid() returns (id: Id)
      modifies this`nextId
      ensures id == old(nextId) && nextId == id + 1
    {
      id, nextId := nextId, nextId + 1;
    }

    method EncodeTokens(id: Id, row: Session, branch: Option<Id>, remember: bool, accessJti: Id)
      modifies this`issued
      ensures issued == old(issued) + Pair(old(View()), settings, id, row, branch, remember, accessJti)
    {
      var access := Token(Access, row.user, id, row.family, accessJti, row.tenant, branch, now + settings.accessSeconds, remember);
      var refresh := Token(Refresh, row.user, id, row.family, row.jti, row.tenant, branch, row.expires, remember);
      issued := issued + {access, refresh};
    }

    method IssueTokenPair(user: Id, a: Account, branch: Option<Id>, staff: bool, remember: bool)
      modifies this
      ensures View() == Login(old(View()), settings, user, a, branch, staff, remember)
    {
      var id := Uuid();
      var family := Uuid();
      var jti := Uuid();
      var lifetime := if remember then settings.rememberSeconds else settings.sessionSeconds;
      var row := Session(user, a.tenant, family, jti, false, now + lifetime, staff);
      sessions := sessions[id := row];
      var accessJti := Uuid();
      EncodeTokens(id, row, branch, remember, accessJti);
    }

    /** Reuse revokes the session before the error is raised; nothing else is kept. */
    method LoadRefreshSession(t: Token, a: Account) returns (v: Verdict)
      modifies this`sessions
      ensures v == Judge(old(View()), t, a)
      ensures View() == Refused(old(View()), t, v)
    {
      if t !in issued || t.kind != Refresh || t.expires <= now - LEEWAY {
        return InvalidToken;
      }
      if t.session !in sessions {
        return SessionRevoked;
      }
      var row := sessions[t.session];
      if row.user != t.user || row.family != t.family || row.revoked || row.expires <= now {
        return SessionRevoked;
      }
      if row.jti != t.jti {
        sessions := sessions[t.session := row.(revoked := true)];
        return TokenReuse;
      }
      if !a.active {
        return AccountInactive;
      }
      if row.tenant != a.tenant || t.tenant != a.tenant {
        return InvalidTenant;
      }
      if a.tenant.Some? && !a.tenantActive {
        return TenantInactive;
      }
      return Accepted;
    }

    method RotateSessionTokens(t: Token, branch: Option<Id>, rotateFamily: bool)
      requires t.session in sessions
      modifies this
      ensures View() == Rotate(old(View()), settings, t, branch, rotateFamily)
    {
      var row := sessions[t.session];
      var family := Uuid();
      if rotateFamily {
        row := row.(family := family);
      }
      var jti := Uuid();
      var lifetime := if t.remember then settings.rememberSeconds else settings.sessionSeconds;
      row := row.(jti := jti, expires := now + lifetime);
      sessions := sessions[t.session := row];
      var accessJti := Uuid();
      EncodeTokens(t.session, row, branch, t.remember, accessJti);
      redeemed := redeemed + [t.jti];
    }

    method RotateRefreshToken(t: Token, a: Account) returns (v: Verdict)
      modifies this
      ensures (View(), v) == RefreshStep(old(View()), settings, t, a)
    {
      v := LoadRefreshSession(t, a);
      if v != Accepted {
        return;
      }
      var branch := RefreshBranch(t, a);
      if branch.None? {
        return BranchForbidden;
      }
      RotateSessionTokens(t, branch.value, false);
    }

    method SwitchRefreshTokenBranch(t: Token, a: Account, to: Id) returns (v: Verdict)
      modifies this
      ensures (View(), v) == SwitchStep(old(View()), settings, t, a, to)
    {
      v := LoadRefreshSession(t, a);
      if v != Accepted {
        return;
      }
      if a.tenant.None? {
        return TenantRequired;
      }
      if to !in a.branches {
        return BranchForbidden;
      }
      RotateSessionTokens(t, Some(to), true);
    }

    method RevokeAll(session: Id)
      modifies this`grants
      ensures grants == RevokeGrants(old(grants), session)
    {
      RevokedGrants(grants, session);
      var updated: seq<Grant> := [];
      for i := 0 to |grants|
        invariant grants == old(grants) && |updated| == i
        invariant forall k :: 0 <= k < i ==> updated[k] == RevokeGrants(grants, session)[k]
      {
        var g := grants[i];
        if g.session == session && !g.revoked {
          g := g.(revoked := true);
        }
        updated := updated + [g];
      }
      grants := updated;
    }

    method AuthorizePanel(i: Identity, panel: Panel, authority: Id, limited: bool, credentialsValid: bool) returns (entered: bool)
      requires i in resolved
      modifies this`grants
      ensures entered == MayAuthorize(i, panel, limited, credentialsValid)
      ensures View() == if entered then Enter(old(View()), i, panel, authority, now + SUPPORT_GRANT_SECONDS) else old(View())
    {
      if !i.management || i.tenant.None? || i.branch.None? {
        return false;
      }
      if (if panel == Cashier then "payments.manage" else "orders.create") !in i.permissions {
        return false;
      }
      if limited || !credentialsValid {
        return false;
      }
      RevokeAll(i.session);
      grants := grants + [Grant(i.session, i.user, i.tenant, i.branch, i.family, panel, authority, false, now + SUPPORT_GRANT_SECONDS)];
      entered := true;
    }

    /** Sessions opened by PIN or on a trusted device may enter without a password. */
    method SelectPanel(i: Identity, panel: Panel, authority: Id) returns (entered: bool)
      requires i in resolved && i.session in sessions
      modifies this`grants
      ensures entered == (MaySelect(i, panel) && sessions[i.session].staff)
      ensures View() == if entered then Enter(old(View()), i, panel, authority, sessions[i.session].expires) else old(View())
    {
      if !i.management || i.tenant.None? || i.branch.None? || !(SelectionNeeds(panel) <= i.permissions) {
        return false;
      }
      if !sessions[i.session].staff {
        return false;
      }
      RevokeAll(i.session);
      grants := grants + [Grant(i.session, i.user, i.tenant, i.branch, i.family, panel, authority, false, sessions[i.session].expires)];
      entered := true;
    }

    method LeavePanel(i: Identity)
      requires i in resolved
      modifies this`grants
      ensures View() == Step(old(View()), settings, DoLeave(i))
    {
      RevokeAll(i.session);
    }

    method FindLogoutSession(refresh: Option<Token>, access: Option<Token>) returns (target: Option<Id>)
      ensures target == LogoutTarget(View(), Candidates(refresh, access))
    {
      var candidates := Candidates(refresh, access);
      for i := 0 to |candidates|
        invariant LogoutTarget(View(), candidates) == LogoutTarget(View(), candidates[i..])
      {
        var (t, kind) := candidates[i];
        if t in issued && t.kind == kind && t.expires > now - LEEWAY && t.session in sessions {
          if sessions[t.session].user == t.user && sessions[t.session].family == t.family {
            return Some(t.session);
          }
        }
      }
      return None;
    }

    method LogOut(refresh: Option<Token>, access: Option<Token>)
      modifies this`sessions
      ensures View() == Logout(old(View()), refresh, access)
    {
      var target := FindLogoutSession(refresh, access);
      if target.None? {
        return;
      }
      LogoutTargetExists(View(), Candidates(refresh, access));
      var row := sessions[target.value];
      if row.revoked {
        assert sessions[target.value := row] == sessions;
        return;
      }
      sessions := sessions[target.value := row.(revoked := true)];
    }
  }
}
