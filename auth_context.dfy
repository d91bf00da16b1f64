/**
 * The mock identity provider and the authentication state it keeps
 * (src/contexts/AuthContext.tsx). Browser storage is modelled as two fields of the
 * provider; the 800 ms sign-in delay is a step of fuel in the as-written sign-in.
 */
module AuthContext {
  import opened Wrappers
  import opened JsText
  import opened Roles

  datatype AuthUser = AuthUser(id: string, displayName: string, email: string, roles: seq<Role>)

  /** Keys of MOCK_BASES. */
  datatype MockKey = ProviderKey | CoordinatorKey | CorporateAdminKey | CorporateClinicianKey
                   | CorporateContributorKey | DualRoleKey

  datatype MockBase = MockBase(id: string, displayName: string, email: string)

  /** MOCK_BASES (avatars left out). */
  function MockBaseOf(key: MockKey): MockBase {
    match key
    case ProviderKey => MockBase("entra-mock-provider-1", "Sarah Johnson", "sarah.johnson@reliashealthcare.com")
    case CoordinatorKey => MockBase("entra-mock-coordinator-1", "Maria Garcia", "maria.garcia@reliashealthcare.com")
    case CorporateAdminKey => MockBase("entra-mock-admin-1", "James Chen", "james.chen@reliashealthcare.com")
    case CorporateClinicianKey => MockBase("entra-mock-corp-clinician-1", "Alex Rivera", "alex.rivera@reliashealthcare.com")
    case CorporateContributorKey => MockBase("entra-mock-corp-contrib-1", "Jordan Lee", "jordan.lee@reliashealthcare.com")
    case DualRoleKey => MockBase("entra-mock-dual-1", "Sam Taylor", "sam.taylor@reliashealthcare.com")
  }

  /** ROLE_TO_MOCK_KEY. */
  function RoleToMockKey(r: Role): MockKey {
    match r
    case Provider => ProviderKey
    case Coordinator => CoordinatorKey
    case CorporateAdmin => CorporateAdminKey
    case CorporateClinician => CorporateClinicianKey
    case CorporateContributor => CorporateContributorKey
  }

  datatype DemoCredential = DemoCredential(email: string, caption: string, roles: string)

  /** DEMO_CREDENTIALS, in display order. */
  const DemoCredentials: seq<DemoCredential> := [
    DemoCredential("sarah.johnson@reliashealthcare.com", "Provider", "Provider"),
    DemoCredential("maria.garcia@reliashealthcare.com", "Coordinator", "Coordinator"),
    DemoCredential("james.chen@reliashealthcare.com", "Corporate Admin", "Corporate Admin"),
    DemoCredential("alex.rivera@reliashealthcare.com", "Corporate Clinician", "Corporate Clinician"),
    DemoCredential("jordan.lee@reliashealthcare.com", "Corporate Contributor", "Corporate Contributor"),
    DemoCredential("sam.taylor@reliashealthcare.com", "Provider + Corporate Admin (dual)", "Provider, Corporate Admin")]

  /** One entry of EMAIL_TO_MOCK: a demo email, the mock base it signs in as, and its roles. */
  datatype MockRow = MockRow(email: string, key: MockKey, roles: seq<Role>)

  /** EMAIL_TO_MOCK, one row per key, in the order of DEMO_CREDENTIALS. */
  const EmailToMock: seq<MockRow> := [
    MockRow("sarah.johnson@reliashealthcare.com", ProviderKey, [Provider]),
    MockRow("maria.garcia@reliashealthcare.com", CoordinatorKey, [Coordinator]),
    MockRow("james.chen@reliashealthcare.com", CorporateAdminKey, [CorporateAdmin]),
    MockRow("alex.rivera@reliashealthcare.com", CorporateClinicianKey, [CorporateClinician]),
    MockRow("jordan.lee@reliashealthcare.com", CorporateContributorKey, [CorporateContributor]),
    MockRow("sam.taylor@reliashealthcare.com", DualRoleKey, [Provider, CorporateAdmin])]

  /** `e` is a key of EMAIL_TO_MOCK. */
  predicate IsDemoEmail(e: string) {
    exists k :: 0 <= k < |EmailToMock| && EmailToMock[k].email == e
  }

  /** Some row of EMAIL_TO_MOCK has key `e` and exactly these roles. */
  predicate HasMockRoles(e: string, roles: seq<Role>) {
    exists k :: 0 <= k < |EmailToMock| && EmailToMock[k].email == e && EmailToMock[k].roles == roles
  }

  /** The first row of `rows` with key `e`. */
  function FindRow(rows: seq<MockRow>, e: string): (r: Option<MockRow>)
    ensures r.None? <==> forall k :: 0 <= k < |rows| ==> rows[k].email != e
    ensures r.Some? ==> exists k :: 0 <= k < |rows| && rows[k] == r.value && r.value.email == e
  {
    if rows == [] then None
    else if rows[0].email == e then Some(rows[0])
    else
      RowsTail(rows);
      FindRow(rows[1..], e)
  }

  lemma RowsTail(rows: seq<MockRow>)
    requires rows != []
    ensures forall k :: 1 <= k < |rows| ==> rows[k] == rows[1..][k - 1]
  {
  }

  /**
   * Each row points at the mock base carrying that row's own email, holds at least one
   * role, and has an email longer than any role's string value.
   */
  lemma MockRowsWellFormed()
    ensures forall k :: 0 <= k < |EmailToMock| ==> MockBaseOf(EmailToMock[k].key).email == EmailToMock[k].email
    ensures forall k :: 0 <= k < |EmailToMock| ==> EmailToMock[k].roles != []
    ensures forall k :: 0 <= k < |EmailToMock| ==> |EmailToMock[k].email| > 21
  {
  }

  /** The canonical form every lookup uses: trimmed, then lower-cased. */
  function NormalizeEmail(email: string): string {
    ToLower(Trim(email))
  }

  /**
   * getAuthUserByEmail: a known normalised email yields its mock user with exactly the
   * table's roles (never none), and that user's email is the normalised email itself.
   */
  function GetAuthUserByEmail(email: string): (u: Option<AuthUser>)
    ensures u.Some? <==> IsDemoEmail(NormalizeEmail(email))
    ensures u.Some? ==> HasMockRoles(NormalizeEmail(email), u.value.roles)
    ensures u.Some? ==> u.value.email == NormalizeEmail(email)
    ensures u.Some? ==> u.value.roles != []
  {
    MockRowsWellFormed();
    match FindRow(EmailToMock, NormalizeEmail(email))
    case None => None
    case Some(row) =>
      var base := MockBaseOf(row.key);
      Some(AuthUser(base.id, base.displayName, base.email, row.roles))
  }

  /** EMAIL_TO_MOCK and DEMO_CREDENTIALS list the same emails in the same order. */
  lemma DemoCredentialsAreTheMockKeys()
    ensures |DemoCredentials| == |EmailToMock|
    ensures forall k :: 0 <= k < |EmailToMock| ==> DemoCredentials[k].email == EmailToMock[k].email
  {
  }

  /** A role name is not an email of the table, so looking it up finds nobody. */
  lemma RoleNameIsNoDemoEmail(r: Role)
    ensures GetAuthUserByEmail(RoleName(r)).None?
  {
    MockRowsWellFormed();
    TrimSpec(RoleName(r));
    assert |NormalizeEmail(RoleName(r))| <= |RoleName(r)| <= 21;
  }

  /** The argument of mockEntraSignIn: a string (a demo email or a role's value) or a list of roles. */
  datatype SignInArg = Text(s: string) | RoleList(roles: seq<Role>)

  /**
   * The array branch: several roles sign in as the dual-role base, one role as its own base.
   * An empty list finds no base; its user carries no identity fields, modelled as empty strings.
   */
  function RoleUser(roles: seq<Role>): (u: AuthUser)
    ensures u.roles == roles
    ensures |roles| > 1 ==> u.id == MockBaseOf(DualRoleKey).id
    ensures |roles| == 1 ==> u.id == MockBaseOf(RoleToMockKey(roles[0])).id
  {
    if roles == [] then AuthUser("", "", "", [])
    else
      var key := if |roles| > 1 then DualRoleKey else RoleToMockKey(roles[0]);
      var base := MockBaseOf(key);
      AuthUser(base.id, base.displayName, base.email, roles)
  }

  /**
   * mockEntraSignIn as written. Each call waits once, which costs one unit of `fuel`;
   * `None` means the call has not returned within `fuel` waits. A string that is not a
   * demo email falls back to a call with the string "Provider", which is again a string.
   */
  function MockEntraSignInAsWritten(arg: SignInArg, fuel: nat): Option<AuthUser>
    decreases fuel
  {
    if fuel == 0 then None
    else
      match arg
      case Text(s) =>
        (match GetAuthUserByEmail(s)
         case Some(u) => Some(u)
         case None => MockEntraSignInAsWritten(Text(RoleName(Provider)), fuel - 1))
      case RoleList(roles) => Some(RoleUser(roles))
  }

  /** A string that is not a demo email never signs in, however long one waits. */
  lemma {:induction false} AsWrittenNeverReturns(s: string, fuel: nat)
    requires GetAuthUserByEmail(s).None?
    ensures MockEntraSignInAsWritten(Text(s), fuel).None?
  {
    if fuel > 0 {
      AsWrittenFallsBack(s, fuel);
      FallbackNeverReturns(fuel - 1);
    }
  }

  /** The fallback call with "Provider" falls back to itself, wait after wait. */
  lemma {:induction false} FallbackNeverReturns(fuel: nat)
    ensures MockEntraSignInAsWritten(Text(RoleName(Provider)), fuel).None?
  {
    if fuel > 0 {
      RoleNameIsNoDemoEmail(Provider);
      AsWrittenFallsBack(RoleName(Provider), fuel);
      FallbackNeverReturns(fuel - 1);
    }
  }

  /** One wait of the as-written sign-in: an unknown string is retried as "Provider". */
  lemma AsWrittenFallsBack(s: string, fuel: nat)
    requires fuel > 0 && GetAuthUserByEmail(s).None?
    ensures MockEntraSignInAsWritten(Text(s), fuel) == MockEntraSignInAsWritten(Text(RoleName(Provider)), fuel - 1)
  {
  }

  /** In particular a bare role, including the default "Provider", never signs in. */
  lemma BareRoleNeverSignsIn(r: Role, fuel: nat)
    ensures MockEntraSignInAsWritten(Text(RoleName(r)), fuel).None?
  {
    RoleNameIsNoDemoEmail(r);
    AsWrittenNeverReturns(RoleName(r), fuel);
  }

  /**
   * mockEntraSignIn as evidently intended: a demo email signs in as its user; any other
   * string that is a role's value signs in as that role; any other string as a Provider.
   */
  function MockEntraSignIn(arg: SignInArg): (u: AuthUser)
    ensures arg.Text? && GetAuthUserByEmail(arg.s).Some? ==> u == GetAuthUserByEmail(arg.s).value
    ensures arg.Text? && GetAuthUserByEmail(arg.s).None? ==> u.roles == [RoleFromName(arg.s).GetOr(Provider)]
    ensures arg.RoleList? ==> u.roles == arg.roles
    ensures u.roles != [] || arg == RoleList([])
  {
    match arg
    case Text(s) =>
      (match GetAuthUserByEmail(s)
       case Some(u) => u
       case None => RoleUser([RoleFromName(s).GetOr(Provider)]))
    case RoleList(roles) => RoleUser(roles)
  }

  /** Wherever the as-written sign-in returns at all, the corrected one returns the same user. */
  lemma CorrectedAgreesWhereAsWrittenReturns(arg: SignInArg, fuel: nat)
    requires MockEntraSignInAsWritten(arg, fuel).Some?
    ensures MockEntraSignIn(arg) == MockEntraSignInAsWritten(arg, fuel).value
  {
    if arg.Text? && GetAuthUserByEmail(arg.s).None? {
      AsWrittenNeverReturns(arg.s, fuel);
    }
  }

  /** The user record as read back from storage: `roles` may be missing, a legacy `role` present. */
  datatype StoredUser = StoredUser(id: string, displayName: string, email: string,
                                   roles: Option<seq<Role>>, role: Option<Role>)

  /** The storage slot for the user: empty, unreadable JSON, or a parsed record. */
  datatype StoredAuth = Missing | Unreadable | Stored(record: StoredUser)

  /**
   * loadStoredUser: a readable record becomes a user; a missing `roles` list is migrated to
   * the legacy role, or to Provider when there is none; a present list is kept even if empty.
   */
  function LoadStoredUser(stored: StoredAuth): (u: Option<AuthUser>)
    ensures u.Some? <==> stored.Stored?
    ensures u.Some? && stored.record.roles.Some? ==> u.value.roles == stored.record.roles.value
    ensures u.Some? && stored.record.roles.None? ==> |u.value.roles| == 1
    ensures u.Some? && stored.record.roles.None? ==> u.value.roles[0] == stored.record.role.GetOr(Provider)
    ensures u.Some? ==> u.value.id == stored.record.id && u.value.email == stored.record.email
    ensures u.Some? ==> u.value.displayName == stored.record.displayName
  {
    match stored
    case Missing => None
    case Unreadable => None
    case Stored(r) =>
      var roles := match r.roles
        case Some(rs) => rs
        case None => if r.role.Some? then [r.role.value] else [Provider];
      Some(AuthUser(r.id, r.displayName, r.email, roles))
  }

  /** saveUser: the user serialised with its roles list and no legacy role. */
  function SavedForm(u: AuthUser): StoredAuth {
    Stored(StoredUser(u.id, u.displayName, u.email, Some(u.roles), None))
  }

  /** A saved user loads back unchanged. */
  lemma SavedUserLoadsBack(u: AuthUser)
    ensures LoadStoredUser(SavedForm(u)) == Some(u)
  {
  }

  /** Migration is stable: saving a migrated user and loading it again changes nothing. */
  lemma MigrationIsStable(stored: StoredAuth)
    requires stored.Stored?
    ensures LoadStoredUser(SavedForm(LoadStoredUser(stored).value)) == LoadStoredUser(stored)
  {
  }

  /** The role among `roles` whose string value is `s`, if any (`roles.includes(s)`). */
  function HeldRoleNamed(roles: seq<Role>, s: string): (r: Option<Role>)
    ensures r.Some? <==> exists role :: role in roles && RoleName(role) == s
    ensures r.Some? ==> r.value in roles && RoleName(r.value) == s
  {
    match RoleFromName(s)
    case None => None
    case Some(role) => if role in roles then Some(role) else None
  }

  /**
   * loadActiveRole: nothing without a user or without roles; otherwise the stored role if the
   * user holds it, else the user's first role.
   */
  function LoadActiveRole(user: Option<AuthUser>, stored: Option<string>): (r: Option<Role>)
    ensures r.None? <==> user.None? || user.value.roles == []
    ensures r.Some? ==> r.value in user.value.roles
    ensures (r.Some? && stored.Some? && HeldRoleNamed(user.value.roles, stored.value).Some?)
              ==> RoleName(r.value) == stored.value
    ensures (r.Some? && (stored.None? || HeldRoleNamed(user.value.roles, stored.value).None?))
              ==> r.value == user.value.roles[0]
  {
    if user.None? || user.value.roles == [] then None
    else if stored.Some? && stored.value != "" && HeldRoleNamed(user.value.roles, stored.value).Some? then
      HeldRoleNamed(user.value.roles, stored.value)
    else Some(user.value.roles[0])
  }

  /** After a reload, a saved user and a saved active role that user holds are restored. */
  lemma ReloadRestoresSession(u: AuthUser, active: Role)
    requires active in u.roles
    ensures LoadStoredUser(SavedForm(u)) == Some(u)
    ensures LoadActiveRole(LoadStoredUser(SavedForm(u)), Some(RoleName(active))) == Some(active)
  {
    RoleNameInjective(active, LoadActiveRole(Some(u), Some(RoleName(active))).value);
  }

  /** The context value that consumers (the route guard, the header, the sign-in page) see. */
  datatype AuthView = AuthView(user: Option<AuthUser>, activeRole: Option<Role>,
                               isAuthenticated: bool, isLoading: bool)

  /** The string `localStorage.setItem` stores when handed `undefined`. */
  const UndefinedText: string := "undefined"

  /** AuthProvider: the session state, with the two storage entries it reads and writes. */
  class AuthProvider {
    var user: Option<AuthUser>
    var activeRole: Option<Role>
    var isLoading: bool
    /** localStorage["provider-portal-auth"] */
    var storedAuth: StoredAuth
    /** localStorage["provider-portal-active-role"] */
    var storedActiveRole: Option<string>

    /** The state initialisers: both read storage; nothing is loading. */
    constructor (auth: StoredAuth, activeRoleEntry: Option<string>)
      ensures storedAuth == auth && storedActiveRole == activeRoleEntry
      ensures user == LoadStoredUser(auth)
      ensures activeRole == LoadActiveRole(LoadStoredUser(auth), activeRoleEntry)
      ensures !isLoading
    {
      storedAuth := auth;
      storedActiveRole := activeRoleEntry;
      user := LoadStoredUser(auth);
      activeRole := LoadActiveRole(LoadStoredUser(auth), activeRoleEntry);
      isLoading := false;
    }

    /** The active role is one the user holds (or one of them is missing). */
    ghost predicate RoleHeld()
      reads this
    {
      user.Some? && activeRole.Some? ==> activeRole.value in user.value.roles
    }

    /** The mount effect: reload the user; keep the previous role when storage yields none. */
    method ReloadFromStorage()
      modifies this`user, this`activeRole
      ensures user == LoadStoredUser(storedAuth)
      ensures activeRole == (var loaded := LoadActiveRole(user, storedActiveRole);
                             if loaded.Some? then loaded else old(activeRole))
    {
      var u := LoadStoredUser(storedAuth);
      user := u;
      var loaded := LoadActiveRole(u, storedActiveRole);
      if loaded.Some? {
        activeRole := loaded;
      }
    }

    /** setActiveRole: switch role and remember it, without checking that the user holds it. */
    method SetActiveRole(role: Role)
      modifies this`activeRole, this`storedActiveRole
      ensures activeRole == Some(role) && storedActiveRole == Some(RoleName(role))
    {
      activeRole := Some(role);
      storedActiveRole := Some(RoleName(role));
    }

    /**
     * The reconciliation effect: an active role the user does not hold is replaced by the
     * user's first role, or by `undefined` (stored as the text "undefined") when there is none.
     */
    method ReconcileActiveRole()
      modifies this`activeRole, this`storedActiveRole
      ensures RoleHeld()
      ensures old(RoleHeld()) ==> activeRole == old(activeRole) && storedActiveRole == old(storedActiveRole)
      ensures !old(RoleHeld()) && user.value.roles != [] ==>
                activeRole == Some(user.value.roles[0]) && storedActiveRole == Some(RoleName(user.value.roles[0]))
      ensures !old(RoleHeld()) && user.value.roles == [] ==>
                activeRole.None? && storedActiveRole == Some(UndefinedText)
    {
      if user.Some? && activeRole.Some? && activeRole.value !in user.value.roles {
        if user.value.roles != [] {
          var next := user.value.roles[0];
          activeRole := Some(next);
          storedActiveRole := Some(RoleName(next));
        } else {
          activeRole := None;
          storedActiveRole := Some(UndefinedText);
        }
      }
    }

    /**
     * signInWithMicrosoft, with the corrected mock sign-in: loading while the call is out,
     * then the user and their active role are set and saved, and loading always ends.
     */
    method SignInWithMicrosoft(arg: Option<SignInArg>)
      modifies this`user, this`activeRole, this`isLoading, this`storedAuth, this`storedActiveRole
      ensures var u := MockEntraSignIn(arg.GetOr(Text(RoleName(Provider))));
              && user == Some(u)
              && storedAuth == SavedForm(u)
              && activeRole == LoadActiveRole(Some(u), old(storedActiveRole))
              && storedActiveRole == (if activeRole.Some? then Some(RoleName(activeRole.value)) else old(storedActiveRole))
      ensures RoleHeld()
      ensures !isLoading
    {
      isLoading := true;
      var effective := arg.GetOr(Text(RoleName(Provider)));
      Settle(MockEntraSignIn(effective));
    }

    /**
     * signInWithMicrosoft as written, the mock sign-in given `fuel` waits. Until that call
     * settles, loading stays on and nothing else changes; once it settles, the user it returned
     * is set and saved, and loading ends.
     */
    method SignInWithMicrosoftAsWritten(arg: Option<SignInArg>, fuel: nat) returns (settled: Option<AuthUser>)
      modifies this`user, this`activeRole, this`isLoading, this`storedAuth, this`storedActiveRole
      ensures settled == MockEntraSignInAsWritten(arg.GetOr(Text(RoleName(Provider))), fuel)
      ensures var r := MockEntraSignInAsWritten(arg.GetOr(Text(RoleName(Provider))), fuel);
              r.None? ==>
                && isLoading
                && user == old(user) && activeRole == old(activeRole)
                && storedAuth == old(storedAuth) && storedActiveRole == old(storedActiveRole)
      ensures var r := MockEntraSignInAsWritten(arg.GetOr(Text(RoleName(Provider))), fuel);
              r.Some? ==>
                && user == Some(r.value)
                && storedAuth == SavedForm(r.value)
                && activeRole == LoadActiveRole(Some(r.value), old(storedActiveRole))
                && storedActiveRole == (if activeRole.Some? then Some(RoleName(activeRole.value)) else old(storedActiveRole))
                && RoleHeld() && !isLoading
    {
      isLoading := true;
      var effective := arg.GetOr(Text(RoleName(Provider)));
      settled := MockEntraSignInAsWritten(effective, fuel);
      if settled.Some? {
        Settle(settled.value);
      }
    }

    /** The body after the awaited call: set and save the user, load and save their role, stop loading. */
    method Settle(authUser: AuthUser)
      modifies this`user, this`activeRole, this`isLoading, this`storedAuth, this`storedActiveRole
      ensures user == Some(authUser) && storedAuth == SavedForm(authUser)
      ensures activeRole == LoadActiveRole(Some(authUser), old(storedActiveRole))
      ensures storedActiveRole == (if activeRole.Some? then Some(RoleName(activeRole.value)) else old(storedActiveRole))
      ensures RoleHeld()
      ensures !isLoading
    {
      user := Some(authUser);
      storedAuth := SavedForm(authUser);
      var nextActive := LoadActiveRole(Some(authUser), storedActiveRole);
      activeRole := nextActive;
      if nextActive.Some? {
        storedActiveRole := Some(RoleName(nextActive.value));
      }
      isLoading := false;
    }

    /** signOut: the session and both storage entries are cleared. */
    method SignOut()
      modifies this`user, this`activeRole, this`storedAuth, this`storedActiveRole
      ensures user.None? && activeRole.None?
      ensures storedAuth == Missing && storedActiveRole.None?
      ensures LoadStoredUser(storedAuth).None?
    {
      user := None;
      activeRole := None;
      storedAuth := Missing;
      storedActiveRole := None;
    }

    /** The exposed context value: no active role without a user; authenticated iff a user. */
    function Exposed(): (v: AuthView)
      reads this
      ensures v.isAuthenticated <==> user.Some?
      ensures v.user == user && v.isLoading == isLoading
      ensures v.activeRole == (if user.Some? then activeRole else None)
    {
      AuthView(user, if user.Some? && activeRole.Some? then activeRole else None, user.Some?, isLoading)
    }
  }

  /** A context value as AuthProvider exposes it: authenticated exactly with a user, no role without one. */
  predicate Consistent(v: AuthView) {
    (v.isAuthenticated <==> v.user.Some?) && (v.user.None? ==> v.activeRole.None?)
  }

  /** Every value AuthProvider exposes is consistent. */
  lemma ExposedIsConsistent(p: AuthProvider)
    ensures Consistent(p.Exposed())
  {
  }
}
