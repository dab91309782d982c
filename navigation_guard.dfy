/**
 * The three navigation hooks the management run block registers with the
 * router (src/management/management.run.ts): onStart, onBefore and onFinish.
 * Each hook is a decision: continue the transition, or redirect it to a
 * named state with parameters. Session queries, the permission check, the
 * `profileConfirmed` marker and the fetched API definition are inputs.
 */
module NavigationGuard {
  import opened Wrappers

  type Params = map<string, string>

  /** `apiDefinition` metadata of a state: the expected definition version and where to go otherwise. */
  datatype ApiDefinition = ApiDefinition(version: string, redirect: string)

  /** `data.perms`: `only` may be missing. */
  datatype Perms = Perms(only: Option<seq<string>>)

  /** `data` of a state: `perms` may be missing. */
  datatype StateData = StateData(perms: Option<Perms>)

  /** A router state as the hooks see it. */
  datatype State = State(name: string, data: Option<StateData>, apiDefinition: Option<ApiDefinition>)

  /** What a hook makes of a transition. */
  datatype Decision = Continue | Redirect(target: string, params: Params)

  /** The platform constants the hooks read. */
  datatype Config = Config(forceLoginEnabled: bool, userCreationEnabled: bool)

  /** The user session: `isAuthenticated()` and `currentUser.firstLogin`. */
  datatype Session = Session(authenticated: bool, firstLogin: bool)

  /** Outcome of `ApiService.get`: a rejected promise, or the definition's `gravitee` field. */
  datatype ApiResponse = FetchFailed | Fetched(gravitee: Option<string>)

  /** What onBefore does: nothing, a fetch that settles on a decision, or a fetch that fails. */
  datatype BeforeOutcome = NoCheck | Checked(apiId: Option<string>, decision: Decision) | CheckRejected(apiId: Option<string>)

  const LoginState := "login"
  const ConfirmProfileState := "confirmProfile"
  const DefaultLandingState := "management.apis.list"

  /** The states the onStart hook is not registered for. */
  const ExemptStates: set<string> := {"login", "registration", "confirm", "confirmProfile", "resetPassword"}

  /** JavaScript truthiness of `localStorage.getItem(...)`: a missing item or an empty string is falsy. */
  predicate MarkerPresent(item: Option<string>)
  {
    item.Some? && item.value != ""
  }

  /** The `to` criterion of the onStart registration. */
  predicate OnStartApplies(to: State)
  {
    to.name != "login" && to.name != "registration" && to.name != "confirm"
    && to.name != "confirmProfile" && to.name != "resetPassword"
  }

  /** Body of the onStart hook. */
  function OnStartHook(config: Config, session: Session, profileConfirmed: Option<string>): (d: Decision)
    ensures d == Redirect(LoginState, map[]) <==> config.forceLoginEnabled && !session.authenticated
    ensures d == Redirect(ConfirmProfileState, map[])
        <==> !(config.forceLoginEnabled && !session.authenticated)
             && session.authenticated && session.firstLogin && !MarkerPresent(profileConfirmed)
    ensures d.Redirect? ==> d.params == map[] && d.target in {LoginState, ConfirmProfileState}
  {
    if config.forceLoginEnabled && !session.authenticated then Redirect(LoginState, map[])
    else if session.authenticated && session.firstLogin && !MarkerPresent(profileConfirmed) then
      Redirect(ConfirmProfileState, map[])
    else Continue
  }

  /** onStart as the router applies it: the hook runs only when its criterion accepts the target. */
  function OnStart(to: State, config: Config, session: Session, profileConfirmed: Option<string>): (d: Decision)
    ensures to.name in ExemptStates ==> d == Continue
    ensures d.Redirect? ==> d.params == map[] && d.target in {LoginState, ConfirmProfileState}
  {
    if OnStartApplies(to) then OnStartHook(config, session, profileConfirmed) else Continue
  }

  /** Body of the onBefore hook, with `ApiService.get` given as `fetch`. */
  function OnBefore(to: State, params: Params, fetch: Option<string> -> ApiResponse): (r: BeforeOutcome)
    ensures to.apiDefinition.None? <==> r == NoCheck
    ensures r.Checked? ==> r.apiId == (if "apiId" in params then Some(params["apiId"]) else None)
    ensures r.Checked? && r.decision.Redirect? ==> r.decision.params == params
    ensures r.CheckRejected? <==> to.apiDefinition.Some? && fetch(if "apiId" in params then Some(params["apiId"]) else None).FetchFailed?
  {
    match to.apiDefinition
    case None => NoCheck
    case Some(definition) =>
      var apiId := if "apiId" in params then Some(params["apiId"]) else None;
      match fetch(apiId)
      case FetchFailed => CheckRejected(apiId)
      case Fetched(gravitee) =>
        if gravitee.Some? && definition.version != gravitee.value then
          Checked(apiId, Redirect(definition.redirect, params))
        else Checked(apiId, Continue)
  }

  /**
   * The user-creation test of onFinish as the code has it: the second
   * comparison is between the from-state object and the string 'confirm',
   * which is never true; it is modelled by `false`.
   */
  predicate NotEligibleForUserCreation(config: Config, from: State)
    ensures NotEligibleForUserCreation(config, from) <==> !config.userCreationEnabled && from.name == "registration"
    ensures NotEligibleForUserCreation(config, from) ==> from.name != "confirm"
  {
    !config.userCreationEnabled && (from.name == "registration" || false)
  }

  /** `data.perms.only` of a state, when all three are present. */
  function RequiredPerms(to: State): (p: Option<seq<string>>)
    ensures p.Some? <==> to.data.Some? && to.data.value.perms.Some? && to.data.value.perms.value.only.Some?
    ensures p.Some? ==> p.value == to.data.value.perms.value.only.value
  {
    if to.data.Some? && to.data.value.perms.Some? then to.data.value.perms.value.only else None
  }

  /** The routing decision of onFinish (everything after `hideBadge`). */
  function FinishDecision(config: Config, session: Session, hasPermissions: seq<string> -> bool,
                          from: State, to: State): (d: Decision)
    ensures d.Redirect? <==> NotEligibleForUserCreation(config, from)
                             || (RequiredPerms(to).Some? && !hasPermissions(RequiredPerms(to).value))
    ensures d.Redirect? ==> d.params == map[] && d.target in {LoginState, DefaultLandingState}
    ensures d == Redirect(DefaultLandingState, map[]) ==> session.authenticated
  {
    if NotEligibleForUserCreation(config, from) then Redirect(LoginState, map[])
    else if RequiredPerms(to).Some? && !hasPermissions(RequiredPerms(to).value) then
      Redirect(if session.authenticated then DefaultLandingState else LoginState, map[])
    else Continue
  }

  /** The reCAPTCHA service, reduced to how often its badge was hidden. */
  class ReCaptchaService {
    var hideBadgeCalls: nat

    constructor ()
      ensures hideBadgeCalls == 0
    {
      hideBadgeCalls := 0;
    }

    method HideBadge()
      modifies this
      ensures hideBadgeCalls == old(hideBadgeCalls) + 1
    {
      hideBadgeCalls := hideBadgeCalls + 1;
    }
  }

  /** The onFinish hook: hide the badge, then decide. */
  method OnFinish(recaptcha: ReCaptchaService, config: Config, session: Session,
                  hasPermissions: seq<string> -> bool, from: State, to: State) returns (d: Decision)
    modifies recaptcha
    ensures recaptcha.hideBadgeCalls == old(recaptcha.hideBadgeCalls) + 1
    ensures d == FinishDecision(config, session, hasPermissions, from, to)
  {
    recaptcha.HideBadge();
    d := FinishDecision(config, session, hasPermissions, from, to);
  }

  // ---------------------------------------------------------------------
  // Properties of onStart

  /** Forced login wins: an unauthenticated user is sent to `login` from any non-exempt target. */
  lemma ForceLoginRedirects(to: State, config: Config, session: Session, profileConfirmed: Option<string>)
    requires to.name !in ExemptStates
    ensures OnStart(to, config, session, profileConfirmed) == Redirect(LoginState, map[])
        <==> config.forceLoginEnabled && !session.authenticated
  {
  }

  /** The first-login rule: `confirmProfile` exactly for an authenticated first login without the marker. */
  lemma FirstLoginRedirects(to: State, config: Config, session: Session, profileConfirmed: Option<string>)
    requires to.name !in ExemptStates
    ensures OnStart(to, config, session, profileConfirmed) == Redirect(ConfirmProfileState, map[])
        <==> session.authenticated && session.firstLogin && !MarkerPresent(profileConfirmed)
  {
  }

  /** Every other case continues. */
  lemma OnStartOtherwiseContinues(to: State, config: Config, session: Session, profileConfirmed: Option<string>)
    ensures OnStart(to, config, session, profileConfirmed) == Continue
        <==> to.name in ExemptStates
             || (!(config.forceLoginEnabled && !session.authenticated)
                 && !(session.authenticated && session.firstLogin && !MarkerPresent(profileConfirmed)))
  {
  }

  /** A redirect chosen by onStart is never redirected again by onStart. */
  lemma OnStartIdempotent(to: State, config: Config, session: Session, profileConfirmed: Option<string>,
                          next: State)
    requires OnStart(to, config, session, profileConfirmed).Redirect?
    requires next.name == OnStart(to, config, session, profileConfirmed).target
    ensures OnStart(next, config, session, profileConfirmed) == Continue
  {
  }

  // ---------------------------------------------------------------------
  // Properties of onBefore

  /** The version check: a redirect with the unchanged parameters exactly when a non-null version differs. */
  lemma VersionMismatchRedirects(to: State, params: Params, fetch: Option<string> -> ApiResponse)
    requires to.apiDefinition.Some?
    requires fetch(if "apiId" in params then Some(params["apiId"]) else None).Fetched?
    ensures var gravitee := fetch(if "apiId" in params then Some(params["apiId"]) else None).gravitee;
            OnBefore(to, params, fetch).Checked?
            && (OnBefore(to, params, fetch).decision == Redirect(to.apiDefinition.value.redirect, params)
                <==> gravitee.Some? && gravitee.value != to.apiDefinition.value.version)
            && (OnBefore(to, params, fetch).decision == Continue
                <==> gravitee.None? || gravitee.value == to.apiDefinition.value.version)
  {
  }

  // ---------------------------------------------------------------------
  // Properties of onFinish

  /** With user creation disabled, leaving `registration` goes to `login` whatever the target requires. */
  lemma RegistrationBlockedFirst(config: Config, session: Session, hasPermissions: seq<string> -> bool,
                                 from: State, to: State)
    requires !config.userCreationEnabled && from.name == "registration"
    ensures FinishDecision(config, session, hasPermissions, from, to) == Redirect(LoginState, map[])
  {
  }

  /** As written, a transition from `confirm` is never caught by the user-creation rule. */
  lemma ConfirmNeverBlocked(config: Config, session: Session, hasPermissions: seq<string> -> bool,
                            from: State, to: State)
    requires from.name == "confirm" && RequiredPerms(to).None?
    ensures FinishDecision(config, session, hasPermissions, from, to) == Continue
  {
  }

  /** The permission rule: landing route when authenticated, `login` otherwise, exactly when permissions are lacking. */
  lemma MissingPermissionsRedirect(config: Config, session: Session, hasPermissions: seq<string> -> bool,
                                   from: State, to: State)
    requires !NotEligibleForUserCreation(config, from)
    ensures FinishDecision(config, session, hasPermissions, from, to)
        == (if RequiredPerms(to).Some? && !hasPermissions(RequiredPerms(to).value)
            then Redirect(if session.authenticated then DefaultLandingState else LoginState, map[])
            else Continue)
  {
  }

  /** A state that requires permissions the user lacks is never entered unmodified. */
  lemma LackingPermissionsNeverCommit(config: Config, session: Session, hasPermissions: seq<string> -> bool,
                                      from: State, to: State)
    requires RequiredPerms(to).Some? && !hasPermissions(RequiredPerms(to).value)
    ensures FinishDecision(config, session, hasPermissions, from, to).Redirect?
  {
  }

  /** Missing `data`, `perms` or `only` imposes no permission constraint. */
  lemma NoPermsNoRedirect(config: Config, session: Session, hasPermissions: seq<string> -> bool,
                          from: State, to: State)
    requires RequiredPerms(to).None? && !NotEligibleForUserCreation(config, from)
    ensures FinishDecision(config, session, hasPermissions, from, to) == Continue
  {
  }

  // ---------------------------------------------------------------------
  // A sample state from the route table (src/management/management.route.ts)

  const Audit := State("management.audit", Some(StateData(Some(Perms(Some(["environment-audit-r"]))))), None)

  /** An authenticated user without `environment-audit-r` opening the audit view lands on the API list. */
  lemma AuditWithoutPermission(config: Config, hasPermissions: seq<string> -> bool, from: State)
    requires !NotEligibleForUserCreation(config, from)
    requires !hasPermissions(["environment-audit-r"])
    ensures FinishDecision(config, Session(true, false), hasPermissions, from, Audit) == Redirect(DefaultLandingState, map[])
    ensures FinishDecision(config, Session(false, false), hasPermissions, from, Audit) == Redirect(LoginState, map[])
  {
  }

  /** The hide-badge side effect happens once per finished transition, whatever each decides. */
  method HideBadgeOncePerFinish(config: Config, hasPermissions: seq<string> -> bool,
                                session1: Session, from1: State, to1: State,
                                session2: Session, from2: State, to2: State)
    returns (calls: nat)
    ensures calls == 2
  {
    var recaptcha := new ReCaptchaService();
    var d1 := OnFinish(recaptcha, config, session1, hasPermissions, from1, to1);
    var d2 := OnFinish(recaptcha, config, session2, hasPermissions, from2, to2);
    calls := recaptcha.hideBadgeCalls;
  }
}
