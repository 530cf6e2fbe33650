/** The user session store (`useUserStore`): the signed-in user's profile and
    role, the persisted credential, and the actions that populate and tear
    them down. Results of the user API calls are parameters; the credential
    helpers, the route listener and the app store's server-menu cache are
    fields of the store. */
module UserStore {
  import opened Wrappers
  import opened Js
  import opened Permission
  import opened Gateway

  /** The profile keys of the session state besides `role`. */
  datatype ProfileField =
    | Name | Avatar | Job | Organization | Location | Email | Introduction
    | PersonalWebsite | JobName | OrganizationName | LocationName | Phone
    | RegistrationDate | AccountId | Certification | CompanyState

  const ALL_FIELDS: set<ProfileField> :=
    {Name, Avatar, Job, Organization, ProfileField.Location, Email, Introduction, PersonalWebsite, JobName,
     OrganizationName, LocationName, Phone, RegistrationDate, AccountId, Certification, CompanyState}

  /** Every profile field is listed. */
  lemma AllFieldsListed()
    ensures forall f: ProfileField :: f in ALL_FIELDS
  {
    forall f: ProfileField ensures f in ALL_FIELDS {
      match f
      case Name => case Avatar => case Job => case Organization => case Location => case Email =>
      case Introduction => case PersonalWebsite => case JobName => case OrganizationName =>
      case LocationName => case Phone => case RegistrationDate => case AccountId =>
      case Certification => case CompanyState =>
    }
  }

  /** The state key of a profile field. */
  function FieldKey(f: ProfileField): string {
    match f
    case Name => "name"
    case Avatar => "avatar"
    case Job => "job"
    case Organization => "organization"
    case Location => "location"
    case Email => "email"
    case Introduction => "introduction"
    case PersonalWebsite => "personalWebsite"
    case JobName => "jobName"
    case OrganizationName => "organizationName"
    case LocationName => "locationName"
    case Phone => "phone"
    case RegistrationDate => "registrationDate"
    case AccountId => "accountId"
    case Certification => "certification"
    case CompanyState => "companyState"
  }

  /** The session state: the profile keys that are set, and the role. */
  datatype UserState = UserState(profile: map<ProfileField, Value>, role: string)

  /** A partial state for `setInfo`: the profile keys it carries, and the role
      when it carries one. */
  datatype UserPatch = UserPatch(profile: map<ProfileField, Value>, role: Option<string>)

  /** The patch a decoded object makes: every property naming a profile
      field sets that field, and a string `role` property sets the role. */
  function PatchOf(v: Value): (p: UserPatch)
    ensures forall f :: f in p.profile <==> v.Obj? && FieldKey(f) in v.fields
    ensures forall f :: f in p.profile ==> p.profile[f] == v.fields[FieldKey(f)]
    ensures p.role.Some? <==> v.Obj? && "role" in v.fields && v.fields["role"].Str?
    ensures p.role.Some? ==> v.fields["role"] == Str(p.role.value)
  {
    if !v.Obj? then UserPatch(map[], None)
    else
      AllFieldsListed();
      UserPatch(map f | f in ALL_FIELDS && FieldKey(f) in v.fields :: v.fields[FieldKey(f)],
                if "role" in v.fields && v.fields["role"].Str? then Some(v.fields["role"].s) else None)
  }

  /** What the login call resolves to. */
  datatype LoginRes = LoginRes(token: string, userInfo: UserPatch)

  /** A field of the state; a key that is not set reads as `undefined`. */
  function Field(s: UserState, f: ProfileField): Value {
    if f in s.profile then s.profile[f] else Undefined
  }

  /** The state factory: the fifteen profile keys declared `undefined`
      (`companyState` is not declared) and the role `''`. */
  function InitialState(): (s: UserState)
    ensures forall f :: Field(s, f) == Undefined
    ensures s.role == ""
    ensures forall f :: f in s.profile <==> f != CompanyState
  {
    AllFieldsListed();
    UserState(map f | f in ALL_FIELDS && f != CompanyState :: Undefined, "")
  }

  /** `$reset()` of an options store: the factory's keys are assigned back
      onto the state, and a key the factory does not declare keeps its value.
      So `companyState`, which the state type lists but the factory leaves
      out, survives a reset. */
  function Reset(s: UserState): (r: UserState)
    ensures forall f :: f != CompanyState ==> Field(r, f) == Undefined
    ensures Field(r, CompanyState) == Field(s, CompanyState)
    ensures r.role == ""
  {
    UserState(s.profile + InitialState().profile, InitialState().role)
  }

  /** A company state set during one session is still there after reset. */
  lemma ResetKeepsCompanyState(s: UserState, company: Value)
    ensures Field(Reset(Patched(s, UserPatch(map[CompanyState := company], None))), CompanyState) == company
  {
  }

  /** The factory as the state type declares it: every profile key
      `undefined`, `companyState` included, and the role `''`. */
  function DeclaredInitialState(): (s: UserState)
    ensures forall f :: f in s.profile && Field(s, f) == Undefined
    ensures s.role == ""
  {
    AllFieldsListed();
    UserState(map f | f in ALL_FIELDS :: Undefined, "")
  }

  /** The reset evidently intended: over the declared factory nothing of the
      previous session is left. */
  function CorrectedReset(s: UserState): (r: UserState)
    ensures forall f :: Field(r, f) == Undefined
    ensures r.role == ""
  {
    UserState(s.profile + DeclaredInitialState().profile, DeclaredInitialState().role)
  }

  /** The corrected reset forgets the session: any two states reset alike. */
  lemma CorrectedResetForgets(s: UserState, t: UserState)
    ensures CorrectedReset(s) == CorrectedReset(t) == DeclaredInitialState()
  {
    AllFieldsListed();
    assert CorrectedReset(s).profile == DeclaredInitialState().profile;
    assert CorrectedReset(t).profile == DeclaredInitialState().profile;
  }

  /** `$patch(partial)`: the keys of the partial overwrite the state's. */
  function Patched(s: UserState, p: UserPatch): UserState {
    UserState(s.profile + p.profile, p.role.GetOr(s.role))
  }

  /** A patch changes exactly the fields it carries, role included. */
  lemma PatchedFields(s: UserState, p: UserPatch)
    ensures forall f :: Field(Patched(s, p), f) == if f in p.profile then p.profile[f] else Field(s, f)
    ensures Patched(s, p).role == if p.role.Some? then p.role.value else s.role
  {
  }

  /** Of two patches the later wins on every field both carry. */
  lemma LaterPatchWins(s: UserState, first: UserPatch, second: UserPatch)
    ensures forall f :: Field(Patched(Patched(s, first), second), f) ==
                        if f in second.profile then second.profile[f]
                        else if f in first.profile then first.profile[f]
                        else Field(s, f)
    ensures Patched(Patched(s, first), second).role ==
              if second.role.Some? then second.role.value
              else if first.role.Some? then first.role.value
              else s.role
  {
  }

  /** Applying a patch twice is applying it once. */
  lemma PatchedIdempotent(s: UserState, p: UserPatch)
    ensures Patched(Patched(s, p), p) == Patched(s, p)
  {
  }

  /** The role `switchRoles` moves to. */
  function SwitchedRole(role: string): string {
    if role == "user" then "admin" else "user"
  }

  /** Switching maps `'user'` to `'admin'` and every other role to `'user'`;
      switching twice restores exactly the roles `'user'` and `'admin'`. */
  lemma SwitchedRoleProperties(role: string)
    ensures role == "user" ==> SwitchedRole(role) == "admin"
    ensures role != "user" ==> SwitchedRole(role) == "user"
    ensures SwitchedRole(SwitchedRole(role)) == role <==> role == "user" || role == "admin"
  {
  }

  /** After a login whose final state carries role `r`, every route that
      requires authentication and lists `r` is open to the session. */
  lemma LoginRoleOpensItsRoutes(s: UserState, userInfo: UserPatch, info: UserPatch, route: Route)
    requires info.role.Some? && Roles(route).Some? && info.role.value in Roles(route).value
    ensures Patched(Patched(s, userInfo), info).role == info.role.value
    ensures AccessRouter(route, Patched(Patched(s, userInfo), info).role)
  {
  }

  class UserStore {
    /** The reactive session state. */
    var state: UserState
    /** The persisted credential (`setToken` / `clearToken`). */
    var token: Option<string>
    /** A route-change listener is registered (`removeRouteListener` drops it). */
    var routeListener: bool
    /** The app store's menu fetched from the server (`clearServerMenu` empties it). */
    var serverMenu: seq<Route>

    /** A fresh store next to whatever credential, listener and menu survive. */
    constructor (persistedToken: Option<string>, listening: bool, menu: seq<Route>)
      ensures state == InitialState()
      ensures token == persistedToken && routeListener == listening && serverMenu == menu
    {
      state := InitialState();
      token := persistedToken;
      routeListener := listening;
      serverMenu := menu;
    }

    /** The `userInfo` getter: a copy of the state, field for field. */
    function UserInfo(): (copy: UserState)
      reads this
      ensures forall f :: Field(copy, f) == Field(state, f)
      ensures copy.role == state.role
    {
      state
    }

    /** `switchRoles()`: resolves with the new role; nothing else changes. */
    method SwitchRoles() returns (newRole: string)
      modifies this`state
      ensures state == old(state).(role := SwitchedRole(old(state.role)))
      ensures newRole == state.role
    {
      state := state.(role := SwitchedRole(state.role));
      newRole := state.role;
    }

    /** `setInfo(partial)`. */
    method SetInfo(partial: UserPatch)
      modifies this`state
      ensures state == Patched(old(state), partial)
    {
      state := Patched(state, partial);
    }

    /** `resetInfo()`: `$reset()`, which keeps `companyState`. */
    method ResetInfo()
      modifies this`state
      ensures state == Reset(old(state))
    {
      state := Reset(state);
    }

    /** `info()`: the "who am I" call's result is applied; a rejection
      propagates and leaves the state alone. */
    method Info(res: Result<UserPatch, Rejection>) returns (outcome: Result<(), Rejection>)
      modifies this`state
      ensures res.Success? ==> state == Patched(old(state), res.value) && outcome == Success(())
      ensures res.Failure? ==> state == old(state) && outcome == Failure(res.error)
    {
      if res.Failure? {
        return Failure(res.error);
      }
      SetInfo(res.value);
      outcome := Success(());
    }

    /** `login(form)`: `loginRes` is the login call's result and `infoRes` the
        result of the follow-up `info()` call. On success the token is stored,
        the returned profile applied and then the fetched profile applied on
        top; a failure at either call clears the token and rethrows the same
        error, keeping whatever was already applied. */
    method Login(loginRes: Result<LoginRes, Rejection>, infoRes: Result<UserPatch, Rejection>)
      returns (outcome: Result<(), Rejection>)
      modifies this`state, this`token
      ensures loginRes.Failure? ==>
                outcome == Failure(loginRes.error) && token == None && state == old(state)
      ensures loginRes.Success? && infoRes.Failure? ==>
                outcome == Failure(infoRes.error) && token == None &&
                state == Patched(old(state), loginRes.value.userInfo)
      ensures loginRes.Success? && infoRes.Success? ==>
                outcome == Success(()) && token == Some(loginRes.value.token) &&
                state == Patched(Patched(old(state), loginRes.value.userInfo), infoRes.value)
    {
      if loginRes.Failure? {
        token := None;
        return Failure(loginRes.error);
      }
      token := Some(loginRes.value.token);
      SetInfo(loginRes.value.userInfo);
      var fetched := Info(infoRes);
      if fetched.Failure? {
        token := None;
        return Failure(fetched.error);
      }
      outcome := Success(());
    }

    /** `logoutCallBack()`: reset the state, clear the token, remove the route
        listener and clear the server menu. */
    method LogoutCallBack()
      modifies this
      ensures state == Reset(old(state)) && token == None && !routeListener && serverMenu == []
    {
      ResetInfo();
      token := None;
      routeListener := false;
      serverMenu := [];
    }

    /** `logout()`: `remote` is the logout call's result. The teardown runs
        whatever it is, and its rejection still reaches the caller. */
    method Logout(remote: Result<(), Rejection>) returns (outcome: Result<(), Rejection>)
      modifies this
      ensures state == Reset(old(state)) && token == None && !routeListener && serverMenu == []
      ensures outcome == remote
    {
      LogoutCallBack();
      outcome := remote;
    }
  }
}
