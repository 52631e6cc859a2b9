/** The officer sign-in and enrolment flow: badge lookup, biometric step, token
    check and emergency override, over a registry of seeded and self-registered
    officers. The local-storage registry is the `registered` map; the platform
    authenticator's answer is a parameter; each delayed callback is a `Timer`
    value that a handler returns and `Fire` later runs. */
module AuthFlow {
  import opened Types
  import opened Text

  const InvalidBadge := "Invalid Badge ID. Access Denied."
  const FieldsRequired := "All fields are required for enrollment."
  const BadgeTaken := "Badge ID already registered in system."
  const BiometricCancelled := "Biometric authentication was cancelled."
  const InvalidToken := "Invalid Token Code"
  /** The error name a cancelled platform-authenticator prompt reports. */
  const NotAllowed := "NotAllowedError"

  /** The six seeded officers, keyed by badge. */
  function MockUsers(): map<string, User> {
    map[
      "DGM-DG" := User("DGM-DG", "Gen. K. Mutombo", DirectorGeneral, 5, "HQ - Kinshasa", None),
      "DGM-ZC" := User("DGM-ZC", "Cmdr. A. Bakali", ZoneCommander, 4, "Zone East - Goma", None),
      "DGM-SI" := User("DGM-SI", "Insp. M. Kasongo", SeniorInspector, 3, "N'Djili Airport", None),
      "DGM-BA" := User("DGM-BA", "Officer J. Mobutu", BorderAgent, 2, "Poste Ruzizi II", None),
      "DGM-IO" := User("DGM-IO", "Lt. S. Bemba", IntelligenceOfficer, 4, "Intel Unit A", None),
      "DGM-SA" := User("DGM-SA", "SysAdmin Root", SystemAdmin, 5, "Server Room", None)
    ]
  }

  /** The registry the flow consults: seeds overlaid by self-registered officers. */
  function AllUsers(registered: map<string, User>): (r: map<string, User>)
    ensures r.Keys == MockUsers().Keys + registered.Keys
    ensures forall k :: k in registered ==> r[k] == registered[k]
    ensures forall k :: k in MockUsers() && k !in registered ==> r[k] == MockUsers()[k]
  {
    MockUsers() + registered
  }

  /** The badge lookup: the upper-cased badge as a registry key. */
  function Lookup(registered: map<string, User>, badge: string): Option<User> {
    var users := AllUsers(registered);
    var key := ToUpper(badge);
    if key in users then Some(users[key]) else None
  }

  /** Every key is upper-case and names the officer stored under it. */
  ghost predicate WellFormedRegistry(m: map<string, User>) {
    forall k :: k in m ==> m[k].id == k && IsUpperCase(k)
  }

  lemma SeedsWellFormed()
    ensures WellFormedRegistry(MockUsers())
  {
    var m := MockUsers();
    forall k | k in m ensures m[k].id == k && IsUpperCase(k) {
      SeedKeyUpper(k);
    }
  }

  /** Each seeded badge is "DGM-" and two capitals. */
  lemma SeedKeyUpper(k: string)
    requires k in MockUsers()
    ensures IsUpperCase(k)
  {
    var m := MockUsers();
    assert |k| == 6 && k[..4] == "DGM-" && 'A' <= k[4] <= 'Z' && 'A' <= k[5] <= 'Z' by {
      assert k in {"DGM-DG", "DGM-ZC", "DGM-SI", "DGM-BA", "DGM-IO", "DGM-SA"};
    }
    assert forall i :: 0 <= i < 4 ==> k[i] == k[..4][i];
  }

  /** Badges that differ only in letter case find the same officer. */
  lemma LookupIgnoresCase(registered: map<string, User>, a: string, b: string)
    requires ToUpper(a) == ToUpper(b)
    ensures Lookup(registered, a) == Lookup(registered, b)
  {
  }

  /** A hit in a well-formed registry is the officer whose id is the upper-cased badge;
      a miss means neither the seeds nor the self-registered officers hold that key. */
  lemma LookupFindsUpperCasedBadge(registered: map<string, User>, badge: string)
    requires WellFormedRegistry(registered)
    ensures Lookup(registered, badge).Some? ==> Lookup(registered, badge).value.id == ToUpper(badge)
    ensures Lookup(registered, badge).None? <==> ToUpper(badge) !in MockUsers() && ToUpper(badge) !in registered
  {
    SeedsWellFormed();
  }

  /** A self-registered entry shadows the seed with the same key. */
  lemma SelfRegisteredWins(registered: map<string, User>, badge: string)
    requires ToUpper(badge) in registered
    ensures Lookup(registered, badge) == Some(registered[ToUpper(badge)])
  {
  }

  /** "dgm-ba" finds the seeded border agent, clearance 2, unless a self-registered
      officer holds that key. */
  lemma LowerCaseBorderAgentBadge(registered: map<string, User>)
    requires "DGM-BA" !in registered
    ensures Lookup(registered, "dgm-ba") == Some(MockUsers()["DGM-BA"])
    ensures Lookup(registered, "dgm-ba").value.role == BorderAgent
    ensures Lookup(registered, "dgm-ba").value.clearanceLevel == 2
  {
    assert ToUpper("dgm-ba") == "DGM-BA";
  }

  /** The enrolment form check: missing fields first, then a taken badge. */
  function RegistrationError(registered: map<string, User>, name: string, badge: string, location: string): (r: Option<string>)
    ensures r == Some(FieldsRequired) <==> name == "" || badge == "" || location == ""
    ensures r == Some(BadgeTaken) <==> name != "" && badge != "" && location != "" && Lookup(registered, badge).Some?
    ensures r.None? <==> name != "" && badge != "" && location != "" && Lookup(registered, badge).None?
  {
    if name == "" || badge == "" || location == "" then Some(FieldsRequired)
    else if ToUpper(badge) in AllUsers(registered) then Some(BadgeTaken)
    else None
  }

  /** The officer an accepted enrolment creates: badge upper-cased, lowest clearance. */
  function NewOfficer(name: string, badge: string, role: UserRole, location: string): (u: User)
    ensures u.id == ToUpper(badge) && IsUpperCase(u.id)
    ensures u.name == name && u.role == role && u.location == location
    ensures u.clearanceLevel == 1 && u.isEmergencyMode.None?
  {
    User(ToUpper(badge), name, role, 1, location, None)
  }

  /** An officer whose enrolment passed the check and was written under its id can
      sign in with the badge it gave (in any letter case); every badge that already
      resolved still resolves to the same officer, and exactly one key is new. */
  lemma EnrolledOfficerCanSignIn(registered: map<string, User>, name: string, badge: string,
                                 role: UserRole, location: string, other: string)
    requires RegistrationError(registered, name, badge, location).None?
    ensures var u := NewOfficer(name, badge, role, location);
      && Lookup(registered[u.id := u], badge) == Some(u)
      && (Lookup(registered, other).Some? ==> Lookup(registered[u.id := u], other) == Lookup(registered, other))
      && u.id !in AllUsers(registered)
      && AllUsers(registered[u.id := u]).Keys == AllUsers(registered).Keys + {u.id}
  {
    var u := NewOfficer(name, badge, role, location);
    var after := registered[u.id := u];
    assert AllUsers(after)[u.id] == u;
    if Lookup(registered, other).Some? {
      assert ToUpper(other) != u.id;
    }
  }

  /** Enrolment keeps a well-formed registry well-formed. */
  lemma EnrolmentKeepsRegistryWellFormed(registered: map<string, User>, name: string, badge: string,
                                         role: UserRole, location: string)
    requires WellFormedRegistry(registered)
    ensures var u := NewOfficer(name, badge, role, location); WellFormedRegistry(registered[u.id := u])
  {
  }

  /** The enrolment completion may also write an officer found by a sign-in
      lookup (a lookup that lands after a switch to enrolment): that write keeps a
      well-formed registry well-formed too, so every registry the screen builds
      from a well-formed one stays well-formed. */
  lemma LookedUpWriteKeepsWellFormed(registered: map<string, User>, badge: string)
    requires WellFormedRegistry(registered) && Lookup(registered, badge).Some?
    ensures var u := Lookup(registered, badge).value; WellFormedRegistry(registered[u.id := u])
  {
    SeedsWellFormed();
    LookupFindsUpperCasedBadge(registered, badge);
  }

  /** The break-glass identity. */
  function EmergencyUser(): (u: User)
    ensures u.id == "EMERGENCY-001" && u.name == "EMERGENCY OVERRIDE"
    ensures u.role == DirectorGeneral && u.clearanceLevel == 5
    ensures u.location == "UNKNOWN" && u.isEmergencyMode == Some(true)
  {
    User("EMERGENCY-001", "EMERGENCY OVERRIDE", DirectorGeneral, 5, "UNKNOWN", Some(true))
  }

  /** The override matches the highest seeded clearance and no seeded badge. */
  lemma EmergencyUserOutranksSeeds()
    ensures EmergencyUser().id !in MockUsers()
    ensures forall k :: k in MockUsers() ==> MockUsers()[k].clearanceLevel <= EmergencyUser().clearanceLevel
    ensures exists k :: k in MockUsers() && MockUsers()[k].clearanceLevel == EmergencyUser().clearanceLevel
  {
    assert MockUsers()["DGM-DG"].clearanceLevel == 5;
  }

  /** What the token field keeps of a typed value: its digits, at most six. */
  function SanitizeToken(raw: string): (r: string)
    ensures |r| <= 6
    ensures forall i :: 0 <= i < |r| ==> IsDigit(r[i])
    ensures r <= KeepDigits(raw)
    ensures |r| == 6 || r == KeepDigits(raw)
  {
    var digits := KeepDigits(raw);
    if |digits| <= 6 then digits else digits[..6]
  }

  /** Editing the field again with its own content changes nothing. */
  lemma SanitizeTokenIdempotent(raw: string)
    ensures SanitizeToken(SanitizeToken(raw)) == SanitizeToken(raw)
  {
  }

  /** Typing one more character into the field appends it when it is a digit and
      the field holds fewer than six; otherwise the field is unchanged. */
  lemma TypingExtendsToken(raw: string, c: char)
    ensures IsDigit(c) && |SanitizeToken(raw)| < 6 ==> SanitizeToken(raw + [c]) == SanitizeToken(raw) + [c]
    ensures !IsDigit(c) || |SanitizeToken(raw)| == 6 ==> SanitizeToken(raw + [c]) == SanitizeToken(raw)
  {
    KeepDigitsAppend(raw, [c]);
    KeepDigitsOne(c);
    var d := KeepDigits(raw);
    if |d| >= 6 {
      assert (d + KeepDigits([c]))[..6] == d[..6];
    }
  }

  /** Any four to six typed digits pass the token check unchanged. */
  lemma TypedCodeAccepted(code: string)
    requires 4 <= |code| <= 6
    requires forall i :: 0 <= i < |code| ==> IsDigit(code[i])
    ensures SanitizeToken(code) == code && |SanitizeToken(code)| >= 4
  {
  }

  datatype AuthMode = LoginMode | RegisterMode
  datatype Step = IdentityStep | BiometricStep | MfaStep | EmergencyStep

  /** What the platform-authenticator request ended with. */
  datatype AuthenticatorOutcome = Credential | NoCredential | Failure(errorName: string)

  /** A delayed callback a handler scheduled, with the values its closure captured. */
  datatype Timer =
    | LookupTimer(badge: string)
    | AccountTimer(name: string, badge: string, role: UserRole, location: string)
    | EnrollmentTimer(candidate: Option<User>)
    | FallbackScanTimer
    | TokenTimer(candidate: Option<User>)

  /** The authentication screen's state. */
  class Controller {
    var mode: AuthMode
    var step: Step
    var isLoading: bool
    var error: string
    var tempUser: Option<User>
    /** Whether a user-verifying platform authenticator was reported at mount. */
    const hasBiometrics: bool
    /** The self-registered officers held in local storage. */
    var registered: map<string, User>

    constructor (stored: map<string, User>, platformAuthenticator: bool)
      ensures mode == LoginMode && step == IdentityStep && !isLoading && error == "" && tempUser.None?
      ensures hasBiometrics == platformAuthenticator && registered == stored
    {
      mode := LoginMode;
      step := IdentityStep;
      isLoading := false;
      error := "";
      tempUser := None;
      hasBiometrics := platformAuthenticator;
      registered := stored;
    }

    method SwitchMode(m: AuthMode)
      modifies this`mode, this`step, this`error, this`tempUser
      ensures mode == m && step == IdentityStep && error == "" && tempUser.None?
    {
      mode := m;
      step := IdentityStep;
      error := "";
      tempUser := None;
    }

    /** The emergency link is offered on the sign-in identity step only. */
    method OpenEmergency()
      requires mode == LoginMode && step == IdentityStep
      modifies this`step
      ensures step == EmergencyStep
    {
      step := EmergencyStep;
    }

    method CancelEmergency()
      modifies this`step
      ensures step == IdentityStep
    {
      step := IdentityStep;
    }

    /** Starts the badge lookup; the result arrives with the returned timer. */
    method SubmitIdentity(badge: string) returns (t: Timer)
      modifies this`error, this`isLoading
      ensures error == "" && isLoading && t == LookupTimer(badge)
    {
      error := "";
      isLoading := true;
      t := LookupTimer(badge);
    }

    /** Checks the enrolment form; on success schedules the account creation.
        The registry is not written here. The enrolment button is disabled while
        loading, and the form has no keyboard shortcut. */
    method SubmitRegistration(name: string, badge: string, role: UserRole, location: string)
      returns (t: Option<Timer>)
      requires !isLoading
      modifies this`error, this`isLoading
      ensures RegistrationError(registered, name, badge, location).Some? ==>
        error == RegistrationError(registered, name, badge, location).value
        && isLoading == old(isLoading) && t.None?
      ensures RegistrationError(registered, name, badge, location).None? ==>
        error == "" && isLoading && t == Some(AccountTimer(name, badge, role, location))
    {
      error := "";
      if name == "" || badge == "" || location == "" {
        error := FieldsRequired;
        return None;
      }
      if ToUpper(badge) in AllUsers(registered) {
        error := BadgeTaken;
        return None;
      }
      isLoading := true;
      t := Some(AccountTimer(name, badge, role, location));
    }

    /** The biometric button. Enrolment always schedules its completion; sign-in
        moves to the token step on a credential, stays on a cancelled prompt, and
        otherwise schedules the simulated scan. */
    method StartBiometric(outcome: AuthenticatorOutcome) returns (t: Option<Timer>)
      modifies this`isLoading, this`error, this`step
      ensures mode == RegisterMode ==>
        t == Some(EnrollmentTimer(tempUser)) && step == old(step) && isLoading && error == ""
      ensures mode == LoginMode && hasBiometrics && outcome == Credential ==>
        t.None? && step == MfaStep && !isLoading && error == ""
      ensures mode == LoginMode && hasBiometrics && outcome == Failure(NotAllowed) ==>
        t.None? && step == old(step) && !isLoading && error == BiometricCancelled
      ensures mode == LoginMode && (!hasBiometrics || outcome == NoCredential
                                    || (outcome.Failure? && outcome.errorName != NotAllowed)) ==>
        t == Some(FallbackScanTimer) && step == old(step) && isLoading && error == ""
    {
      isLoading := true;
      error := "";
      if mode == RegisterMode {
        return Some(EnrollmentTimer(tempUser));
      }
      if hasBiometrics {
        match outcome
        case Credential =>
          isLoading := false;
          step := MfaStep;
          return None;
        case Failure(name) =>
          if name == NotAllowed {
            error := BiometricCancelled;
            isLoading := false;
            return None;
          }
        case NoCredential =>
      }
      t := Some(FallbackScanTimer);
    }

    /** The token check: fewer than four characters is refused. */
    method SubmitMfa(code: string) returns (t: Option<Timer>)
      modifies this`error, this`isLoading
      ensures |code| < 4 ==> error == InvalidToken && isLoading == old(isLoading) && t.None?
      ensures |code| >= 4 ==> error == old(error) && isLoading && t == Some(TokenTimer(tempUser))
    {
      if |code| < 4 {
        error := InvalidToken;
        return None;
      }
      isLoading := true;
      t := Some(TokenTimer(tempUser));
    }

    /** The override grants a session at once and touches no state. */
    method EmergencyAccess() returns (granted: User)
      ensures granted == EmergencyUser()
      ensures granted.isEmergencyMode == Some(true) && granted.clearanceLevel == 5
    {
      granted := EmergencyUser();
    }

    /** Runs a scheduled callback; `granted` is the officer handed to the sign-in callback. */
    method Fire(t: Timer) returns (granted: Option<User>)
      modifies this`step, this`isLoading, this`error, this`tempUser, this`registered
      ensures !t.TokenTimer? ==> !isLoading
      ensures t.TokenTimer? ==> isLoading == old(isLoading)
      ensures t.LookupTimer? && Lookup(old(registered), t.badge).Some? ==>
        tempUser == Lookup(old(registered), t.badge) && step == BiometricStep && error == old(error)
      ensures t.LookupTimer? && Lookup(old(registered), t.badge).None? ==>
        tempUser == old(tempUser) && step == old(step) && error == InvalidBadge
      ensures t.AccountTimer? ==>
        tempUser == Some(NewOfficer(t.name, t.badge, t.role, t.location))
        && step == BiometricStep && error == old(error)
      ensures t.EnrollmentTimer? || t.TokenTimer? ==>
        granted == t.candidate && tempUser == old(tempUser) && step == old(step) && error == old(error)
      ensures t.FallbackScanTimer? ==>
        step == MfaStep && tempUser == old(tempUser) && error == old(error)
      ensures !t.EnrollmentTimer? && !t.TokenTimer? ==> granted.None?
      ensures t.EnrollmentTimer? && t.candidate.Some? ==>
        registered == old(registered)[t.candidate.value.id := t.candidate.value]
      ensures !(t.EnrollmentTimer? && t.candidate.Some?) ==> registered == old(registered)
    {
      granted := None;
      match t
      case LookupTimer(badge) =>
        var user := Lookup(registered, badge);
        if user.Some? {
          tempUser := user;
          step := BiometricStep;
        } else {
          error := InvalidBadge;
        }
        isLoading := false;
      case AccountTimer(name, badge, role, location) =>
        tempUser := Some(NewOfficer(name, badge, role, location));
        isLoading := false;
        step := BiometricStep;
      case EnrollmentTimer(candidate) =>
        isLoading := false;
        granted := FinalizeRegistration(candidate);
      case FallbackScanTimer =>
        isLoading := false;
        step := MfaStep;
      case TokenTimer(candidate) =>
        granted := candidate;
    }

    /** Writes the candidate the enrolment callback captured into the registry
        under its id and signs it in. */
    method FinalizeRegistration(candidate: Option<User>) returns (granted: Option<User>)
      modifies this`registered
      ensures granted == candidate
      ensures candidate.Some? ==> registered == old(registered)[candidate.value.id := candidate.value]
      ensures candidate.None? ==> registered == old(registered)
    {
      granted := None;
      if candidate.Some? {
        var u := candidate.value;
        registered := registered[u.id := u];
        granted := Some(u);
      }
    }
  }

  /** Enrolling "DGM-XX": the check passes, the biometric step completes the
      enrolment, the registry gains the officer and the officer is signed in. */
  method EnrolNewOfficer() returns (granted: Option<User>, registry: map<string, User>)
    ensures granted.Some? && granted.value.id == "DGM-XX"
    ensures granted.value.clearanceLevel == 1 && granted.value.role == BorderAgent
    ensures granted.value.location == "Poste Kasumbalesa"
    ensures registry == map["DGM-XX" := granted.value]
  {
    var auth := new Controller(map[], false);
    auth.SwitchMode(RegisterMode);
    assert ToUpper("DGM-XX") == "DGM-XX";
    assert "DGM-XX" !in MockUsers();
    var t := auth.SubmitRegistration("Officer N. Ilunga", "DGM-XX", BorderAgent, "Poste Kasumbalesa");
    var g := auth.Fire(t.value);
    var t2 := auth.StartBiometric(Credential);
    g := auth.Fire(t2.value);
    granted := g;
    registry := auth.registered;
  }

  /** The emergency path from a screen showing an error: the override identity
      is signed in without any lookup, scan or token, and the registry is
      untouched. */
  method EmergencyFromErrorState() returns (granted: Option<User>, registry: map<string, User>)
    ensures granted == Some(EmergencyUser())
    ensures granted.value.isEmergencyMode == Some(true)
    ensures registry == map[]
  {
    var auth := new Controller(map[], false);
    var t := auth.SubmitIdentity("nobody");
    assert ToUpper("nobody") == "NOBODY";
    var g := auth.Fire(t);
    assert auth.error == InvalidBadge;
    auth.OpenEmergency();
    var u := auth.EmergencyAccess();
    granted := Some(u);
    registry := auth.registered;
  }

  /** "dgm-ba" on a device without a platform credential: the fallback scan, then
      any four-character token, signs in the seeded border agent. */
  method BorderAgentFallbackSignIn() returns (granted: Option<User>)
    ensures granted == Some(MockUsers()["DGM-BA"])
  {
    var auth := new Controller(map[], false);
    LowerCaseBorderAgentBadge(map[]);
    var t := auth.SubmitIdentity("dgm-ba");
    var g := auth.Fire(t);
    assert auth.step == BiometricStep;
    var t2 := auth.StartBiometric(NoCredential);
    g := auth.Fire(t2.value);
    assert auth.step == MfaStep;
    var t3 := auth.SubmitMfa("1234");
    granted := auth.Fire(t3.value);
  }

  /** Pending callbacks are not cancelled by switching mode. A lookup submitted in
      sign-in mode that completes after a switch to enrolment puts the seeded
      officer at the biometric step of the enrolment flow, whose completion writes
      that officer into the registry and signs it in without the token step. */
  method LookupCompletingAfterModeSwitch() returns (granted: Option<User>, registry: map<string, User>)
    ensures granted == Some(MockUsers()["DGM-DG"])
    ensures registry == map["DGM-DG" := MockUsers()["DGM-DG"]]
  {
    ScenarioBadges();
    var auth := new Controller(map[], false);
    var t := auth.SubmitIdentity("DGM-DG");
    auth.SwitchMode(RegisterMode);
    var g := auth.Fire(t);
    assert auth.step == BiometricStep && auth.mode == RegisterMode;
    var t2 := auth.StartBiometric(NoCredential);
    g := auth.Fire(t2.value);
    granted := g;
    registry := auth.registered;
  }

  /** The badges the scenarios below type, resolved against an empty registry. */
  lemma ScenarioBadges()
    ensures Lookup(map[], "DGM-DG") == Some(MockUsers()["DGM-DG"])
    ensures RegistrationError(map[], "Officer N. Ilunga", "DGM-XX", "Poste Kasumbalesa").None?
    ensures NewOfficer("Officer N. Ilunga", "DGM-XX", BorderAgent, "Poste Kasumbalesa").id == "DGM-XX"
  {
    assert ToUpper("DGM-XX") == "DGM-XX" && ToUpper("DGM-DG") == "DGM-DG";
    assert "DGM-XX" !in MockUsers();
  }

  /** The enrolment callback signs in the candidate of the moment it was scheduled.
      An enrolment is submitted, the screen is switched to sign-in and back, and a
      badge lookup is submitted in between with the Enter key (which the loading
      flag does not block). The stale lookup lands between the biometric click and
      its completion and changes the screen's candidate, but the enrolment still
      writes and signs in the officer being enrolled. */
  method EnrolmentKeepsCapturedCandidate() returns (granted: Option<User>, registry: map<string, User>, shown: Option<User>)
    ensures granted.Some? && granted.value.id == "DGM-XX"
    ensures registry == map["DGM-XX" := granted.value]
    ensures shown == Some(MockUsers()["DGM-DG"])
  {
    ScenarioBadges();
    var officer := NewOfficer("Officer N. Ilunga", "DGM-XX", BorderAgent, "Poste Kasumbalesa");
    var auth := new Controller(map[], false);
    auth.SwitchMode(RegisterMode);
    var account := auth.SubmitRegistration("Officer N. Ilunga", "DGM-XX", BorderAgent, "Poste Kasumbalesa");
    assert account == Some(AccountTimer("Officer N. Ilunga", "DGM-XX", BorderAgent, "Poste Kasumbalesa"));
    auth.SwitchMode(LoginMode);
    var lookup := auth.SubmitIdentity("DGM-DG");
    auth.SwitchMode(RegisterMode);
    assert auth.registered == map[];
    var g := auth.Fire(account.value);
    assert auth.tempUser == Some(officer) && auth.mode == RegisterMode;
    var enrolment := auth.StartBiometric(NoCredential);
    assert enrolment == Some(EnrollmentTimer(Some(officer)));
    g := auth.Fire(lookup);
    shown := auth.tempUser;
    granted := auth.Fire(enrolment.value);
    registry := auth.registered;
  }
}
