/** The foreign-national registry: the case-insensitive search over the seeded
    profiles, the risk and status banding the list and the dossier show, and the
    view-mode / registration-wizard state of the screen. */
module ForeignerRegistry {
  import opened Types
  import opened Text
  import opened Lists

  datatype Status = Valid | Warning | Overstay | HighRisk

  /** A registered foreign national (the photo URL is not modelled). */
  datatype Profile = Profile(
    id: string, name: string, nationality: string, passport: string, visaType: string,
    entryDate: string, visaExpiry: string, status: Status, riskScore: int, lastLocation: string)

  function MockProfiles(): seq<Profile> {
    [ Profile("F-2024-001", "Sarah Jenkins", "United Kingdom", "GB-9928374", "Business (Ordinary)",
              "2024-01-15", "2024-04-15", Valid, 12, "Pullman Hotel, Kinshasa"),
      Profile("F-2024-089", "Wei Chen", "China", "CN-8837221", "Mining Permit (Work)",
              "2023-11-20", "2024-02-20", Warning, 45, "Kolwezi Mining District"),
      Profile("F-2024-112", "Jean Dubois", "France", "FR-1122334", "Tourist",
              "2023-10-01", "2024-01-01", Overstay, 88, "Goma Border Post (Attempted Exit)")
    ]
  }

  /** The name or the passport number includes the query, all three lower-cased. */
  predicate Matches(p: Profile, query: string) {
    Contains(ToLower(p.name), ToLower(query)) || Contains(ToLower(p.passport), ToLower(query))
  }

  /** The profiles that match the query, in registry order. */
  function Search(profiles: seq<Profile>, query: string): seq<Profile> {
    if profiles == [] then []
    else (if Matches(profiles[0], query) then [profiles[0]] else []) + Search(profiles[1..], query)
  }

  /** A profile is listed exactly when it is registered and matches. */
  lemma {:induction false} SearchMembership(profiles: seq<Profile>, query: string, p: Profile)
    ensures p in Search(profiles, query) <==> p in profiles && Matches(p, query)
  {
    if profiles != [] {
      SearchMembership(profiles[1..], query, p);
      assert profiles == [profiles[0]] + profiles[1..];
    }
  }

  /** The listing keeps the registry's order and drops, never adds or repeats. */
  lemma {:induction false} SearchIsSublist(profiles: seq<Profile>, query: string)
    ensures Sublist(Search(profiles, query), profiles)
  {
    if profiles != [] {
      SearchIsSublist(profiles[1..], query);
      var rest := Search(profiles[1..], query);
      if Matches(profiles[0], query) {
        assert Search(profiles, query) == [profiles[0]] + rest;
        assert Search(profiles, query)[1..] == rest;
      } else {
        assert Search(profiles, query) == rest;
      }
    }
  }

  /** An empty search box lists every profile. */
  lemma {:induction false} EmptyQueryListsAll(profiles: seq<Profile>)
    ensures Search(profiles, "") == profiles
  {
    if profiles != [] {
      ContainsEmpty(ToLower(profiles[0].name));
      assert ToLower("") == "";
      EmptyQueryListsAll(profiles[1..]);
      assert profiles == [profiles[0]] + profiles[1..];
    }
  }

  /** Queries that agree once lower-cased list the same profiles; in particular
      the case in which a query is typed does not matter. */
  lemma {:induction false} SearchIgnoresCase(profiles: seq<Profile>, q1: string, q2: string)
    requires ToLower(q1) == ToLower(q2)
    ensures Search(profiles, q1) == Search(profiles, q2)
  {
    if profiles != [] {
      SearchIgnoresCase(profiles[1..], q1, q2);
    }
  }

  lemma UpperCasedQueryListsSame(profiles: seq<Profile>, query: string)
    ensures Search(profiles, ToUpper(query)) == Search(profiles, query)
  {
    LowerOfUpper(query);
    SearchIgnoresCase(profiles, ToUpper(query), query);
  }

  /** A query longer than both the name and the passport number of every profile lists nothing. */
  lemma {:induction false} OverlongQueryListsNothing(profiles: seq<Profile>, query: string)
    requires forall i :: 0 <= i < |profiles| ==> |profiles[i].name| < |query| && |profiles[i].passport| < |query|
    ensures Search(profiles, query) == []
  {
    if profiles != [] {
      if Contains(ToLower(profiles[0].name), ToLower(query)) {
        ContainsNoLonger(ToLower(profiles[0].name), ToLower(query));
      }
      if Contains(ToLower(profiles[0].passport), ToLower(query)) {
        ContainsNoLonger(ToLower(profiles[0].passport), ToLower(query));
      }
      OverlongQueryListsNothing(profiles[1..], query);
    }
  }

  datatype Tone = Green | Orange | Red

  function ToneRank(t: Tone): nat {
    match t
    case Green => 0
    case Orange => 1
    case Red => 2
  }

  /** The risk colour: above 70 red, above 30 orange, otherwise green. */
  function RiskBand(score: int): (t: Tone)
    ensures t == Red <==> score > 70
    ensures t == Orange <==> 30 < score <= 70
    ensures t == Green <==> score <= 30
  {
    if score > 70 then Red else if score > 30 then Orange else Green
  }

  /** The "high flight risk" alert of the dossier. */
  predicate HighFlightRisk(score: int) {
    score > 70
  }

  /** The alert is shown exactly on the red band. */
  lemma FlightRiskIsRedBand(score: int)
    ensures HighFlightRisk(score) <==> RiskBand(score) == Red
  {
  }

  /** A higher score never gets a milder colour. */
  lemma RiskBandMonotone(s1: int, s2: int)
    requires s1 <= s2
    ensures ToneRank(RiskBand(s1)) <= ToneRank(RiskBand(s2))
  {
  }

  /** The status badge in the list and the dossier header: valid green, warning
      orange, anything else red. */
  function StatusBadgeTone(s: Status): (t: Tone)
    ensures t == Green <==> s == Valid
    ensures t == Orange <==> s == Warning
  {
    if s == Valid then Green else if s == Warning then Orange else Red
  }

  /** The stay-management bar of the dossier: overstay red, warning orange,
      anything else green. */
  function StayBarTone(s: Status): (t: Tone)
    ensures t == Red <==> s == Overstay
    ensures t == Orange <==> s == Warning
  {
    if s == Overstay then Red else if s == Warning then Orange else Green
  }

  /** The two colourings agree on every status but the high-risk one, which the
      badge shows red and the stay bar green. */
  lemma ToneDisagreementOnlyOnHighRisk(s: Status)
    ensures StatusBadgeTone(s) != StayBarTone(s) <==> s == HighRisk
    ensures s == HighRisk ==> StatusBadgeTone(s) == Red && StayBarTone(s) == Green
  {
  }

  /** What the digital dossier shows of the selected profile. */
  datatype Dossier = Dossier(
    profile: Profile, badge: Tone, stayBar: Tone, stayBarFull: bool, visaExpiredBanner: bool,
    risk: Tone, flightRiskAlert: bool)

  /** The dossier renders nothing without a selected profile. */
  function DigitalDossier(selected: Option<Profile>): (d: Option<Dossier>)
    ensures d.None? <==> selected.None?
    ensures d.Some? ==> d.value.profile == selected.value
    ensures d.Some? ==> d.value.badge == StatusBadgeTone(selected.value.status)
    ensures d.Some? ==> d.value.stayBar == StayBarTone(selected.value.status)
    ensures d.Some? ==> (d.value.visaExpiredBanner <==> selected.value.status == Overstay)
    ensures d.Some? ==> (d.value.stayBarFull <==> selected.value.status == Overstay)
    ensures d.Some? ==> d.value.risk == RiskBand(selected.value.riskScore)
    ensures d.Some? ==> (d.value.flightRiskAlert <==> selected.value.riskScore > 70)
    ensures d.Some? ==> (d.value.visaExpiredBanner <==> d.value.stayBar == Red)
    ensures d.Some? ==> (d.value.flightRiskAlert <==> d.value.risk == Red)
  {
    match selected
    case None => None
    case Some(p) =>
      Some(Dossier(p, StatusBadgeTone(p.status), StayBarTone(p.status), p.status == Overstay,
                   p.status == Overstay, RiskBand(p.riskScore), HighFlightRisk(p.riskScore)))
  }

  /** The seeded overstay case: a red badge and stay bar, the full bar and the
      expired-visa banner, and a red risk score with the flight-risk alert. */
  lemma OverstayDossier()
    ensures var d := DigitalDossier(Some(MockProfiles()[2]));
      d.Some? && d.value.badge == Red && d.value.stayBar == Red && d.value.stayBarFull
      && d.value.visaExpiredBanner && d.value.risk == Red && d.value.flightRiskAlert
  {
  }

  /** Which screen the registry shows. */
  datatype ViewMode = ListView | ProfileView | RegisterView

  class RegistryScreen {
    var viewMode: ViewMode
    var selectedProfile: Option<Profile>
    var registerStep: int
    var searchQuery: string

    /** The wizard step is one of its three pages, and the dossier view always
        has a profile to show. */
    ghost predicate Valid()
      reads this
    {
      1 <= registerStep <= 3 && (viewMode == ProfileView ==> selectedProfile.Some?)
    }

    /** The rows of the list view. */
    function Listed(): (rows: seq<Profile>)
      reads this
      ensures forall p :: p in rows <==> p in MockProfiles() && Matches(p, searchQuery)
    {
      SearchMembershipAll(MockProfiles(), searchQuery);
      Search(MockProfiles(), searchQuery)
    }

    constructor ()
      ensures Valid()
      ensures viewMode == ListView && selectedProfile.None? && registerStep == 1 && searchQuery == ""
      ensures Listed() == MockProfiles()
    {
      viewMode := ListView;
      selectedProfile := None;
      registerStep := 1;
      searchQuery := "";
      EmptyQueryListsAll(MockProfiles());
    }

    method EditSearch(query: string)
      requires Valid()
      modifies this`searchQuery
      ensures Valid() && searchQuery == query
    {
      searchQuery := query;
    }

    /** Clicking a row opens that profile's dossier. */
    method SelectProfile(p: Profile)
      requires Valid()
      modifies this`selectedProfile, this`viewMode
      ensures Valid() && selectedProfile == Some(p) && viewMode == ProfileView
      ensures DigitalDossier(selectedProfile).Some?
    {
      selectedProfile := Some(p);
      viewMode := ProfileView;
    }

    /** "New Registration": the wizard opens at its first page. */
    method BeginRegistration()
      requires Valid()
      modifies this`registerStep, this`viewMode
      ensures Valid() && registerStep == 1 && viewMode == RegisterView
    {
      registerStep := 1;
      viewMode := RegisterView;
    }

    /** "Confirm Document Data": on to the biometric page. */
    method ConfirmDocument()
      requires Valid()
      modifies this`registerStep
      ensures Valid() && registerStep == 2
    {
      registerStep := 2;
    }

    /** "Save Biometrics": on to the final page. */
    method SaveBiometrics()
      requires Valid()
      modifies this`registerStep
      ensures Valid() && registerStep == 3
    {
      registerStep := 3;
    }

    /** "Complete Registration": back to the list at page one; no profile is added. */
    method CompleteRegistration()
      requires Valid()
      modifies this`registerStep, this`viewMode
      ensures Valid() && registerStep == 1 && viewMode == ListView
      ensures Listed() == old(Listed())
    {
      registerStep := 1;
      viewMode := ListView;
    }

    /** The back buttons of the wizard and of the dossier. */
    method BackToRegistry()
      requires Valid()
      modifies this`viewMode
      ensures Valid() && viewMode == ListView
    {
      viewMode := ListView;
    }
  }

  lemma SearchMembershipAll(profiles: seq<Profile>, query: string)
    ensures forall p :: p in Search(profiles, query) <==> p in profiles && Matches(p, query)
  {
    forall p {
      SearchMembership(profiles, query, p);
    }
  }

  /** Walking the whole wizard leaves the registry listing as it was. */
  method RegistrationAddsNoProfile() returns (before: seq<Profile>, after: seq<Profile>, mode: ViewMode)
    ensures before == after == MockProfiles()
    ensures mode == ListView
  {
    var screen := new RegistryScreen();
    before := screen.Listed();
    screen.BeginRegistration();
    screen.ConfirmDocument();
    screen.SaveBiometrics();
    screen.CompleteRegistration();
    after := screen.Listed();
    mode := screen.viewMode;
  }
}
