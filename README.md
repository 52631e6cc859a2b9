# DGM border-control console: a verified model of its logic

This project models, in Dafny, the parts of the DGM border-control console that have
decidable behaviour. The rest of the application is dashboards, charts and animation.
The modelled parts are:

- **Officer authentication** (`AuthFlow`, from `components/Auth.tsx`). It keeps a
  registry that merges six seeded officers with self-registered ones, and the badge
  lookup upper-cases the badge. The flow runs IDENTITY → BIOMETRIC → MFA, with an
  EMERGENCY override beside it, and a sign-in/enrolment mode flag. Enrolment checks
  the form, creates a clearance-1 officer and writes it into the registry when its
  biometric step completes. The token check is a length test on a digits-only field.
- **The application shell** (`Shell`, from `App.tsx`). It restores and ends the
  session and filters the navigation table by role. It dispatches the current view
  to a module, with a "restricted" placeholder for the settings view.
- **The navigation table** (`NavTable`, from `constants.ts`). It has ten entries,
  each listing the roles that may see it.
- **The document scanner** (`DocumentScanner`, from `components/Verification.tsx`).
  A scan needs a granted camera or demo mode. The model covers the passport and QR
  captures and their delayed completion, manual entry, reset, the manual/camera
  toggle, camera-error classification, and the QR auto-detection gate.
- **The foreign-national registry** (`ForeignerRegistry`, from
  `components/ForeignerManagement.tsx`). It covers the case-insensitive search over
  the seeded profiles and the risk and status colouring. It also covers the
  list / dossier / registration-wizard screen state. The status drop-down next to
  the search box holds no state and feeds nothing into the search, so the search
  takes only the query.
- **The visa-application wizard** (`VisaWizard`, from `components/VisaServices.tsx`).
  It has four pages, moved by Back and by Continue; Continue on the last page
  submits and starts over. It also has the stepper markers and the passport-scan
  autofill.

Common types (`UserRole`, `User`, `AppView`, `NavItem`) are in `Types`, after `types.ts`.
`Text` holds the string operations the components call:
- ASCII `toUpperCase`/`toLowerCase`
- `includes`
- `trim`-emptiness
- the digit filter of the token field

Modelling conventions:

- Every `setTimeout` callback is a timer value that the handler returns. The value
  holds what the callback's closure captured. A `Fire` method runs the callback
  later. Timers are never cancelled, as in the source, so a callback that completes
  after the screen has changed is part of the model.
  `AuthFlow.LookupCompletingAfterModeSwitch` shows one such case: a sign-in lookup
  lands in enrolment mode, and the officer is written to the registry and signed
  in without the token step.
  `AuthFlow.EnrolmentKeepsCapturedCandidate` shows the other side: an enrolment
  completion signs in the candidate it captured, whatever the screen holds when
  it runs.
- Browser outcomes are parameters. These are the platform authenticator's answer,
  the camera request's outcome, and the barcode detector's codes.
- Local storage becomes the `registered` map of the authentication controller and
  the `storedSession` field of the shell.
- The sign-in callback `onLogin` becomes the user that the authentication methods
  return. The scenario `Shell.BorderAgentSignIn` passes the user that
  `AuthFlow.BorderAgentFallbackSignIn` grants on to `App.HandleLogin`.

## Model

| member | source | states |
|---|---|---|
| Text.KeepDigits | components/Auth.tsx:452 | the token field keeps only decimal digits, never more characters than typed, and a value already made of digits is kept whole |
| Text.KeepDigitsOne | components/Auth.tsx:452 | a single character is kept exactly when it is a decimal digit |
| Text.KeepDigitsAppend | components/Auth.tsx:452 | the filter of a concatenation is the concatenation of the filters, so the kept characters are the input's digits in their order |
| Text.ToUpper | components/Auth.tsx:99 | `toUpperCase` on ASCII: same length, each character upper-cased, and the result holds no lower-case letter |
| Text.ToLower | components/ForeignerManagement.tsx:73-76 | `toLowerCase` on ASCII: same length, each character lower-cased |
| Text.Contains | components/ForeignerManagement.tsx:73-76 | definition of `includes`: the needle starts at some position of the string; see ContainsEmpty and ContainsNoLonger |
| Text.ContainsEmpty | components/ForeignerManagement.tsx:73-76 | every string includes the empty string |
| Text.ContainsNoLonger | components/ForeignerManagement.tsx:73-76 | a string includes only needles no longer than itself |
| Text.IsBlank | components/Verification.tsx:160 | definition of an entry whose `trim()` is empty: every character is one that `trim` removes; used by HandleManualVerify |
| Text.ToUpperIdempotent | components/Auth.tsx:99 | upper-casing a badge twice is the same as upper-casing it once |
| NavTable.NavItems | constants.ts:22-127 | definition: the ten menu entries in table order, with their captions and role lists; see the NavTable lemmas below |
| NavTable.OneEntryPerView | constants.ts:22-127 | the table has ten entries with pairwise distinct ids, and every view has an entry |
| NavTable.OnlyDashboardIsPublic | constants.ts:23-28 | the dashboard entry has no role list, and it is the only entry without one |
| NavTable.DirectorGeneralInEveryRestrictedEntry | constants.ts:33-125 | every restricted entry lists the director-general |
| NavTable.SettingsRoles | constants.ts:118-126 | the settings entry admits exactly the system administrator and the director-general |
| AuthFlow.MockUsers | components/Auth.tsx:11-18 | definition: the six seeded officers keyed by badge; see SeedsWellFormed and EmergencyUserOutranksSeeds |
| AuthFlow.AllUsers | components/Auth.tsx:86-90 | the merged registry has every seed key and every self-registered key; on a clash the self-registered officer wins, and elsewhere the seed is kept |
| AuthFlow.SeedsWellFormed | components/Auth.tsx:11-18 | every seed is stored under its own id, and every seed key is upper-case |
| AuthFlow.LookupIgnoresCase | components/Auth.tsx:97-107 | badges that agree once upper-cased find the same officer |
| AuthFlow.LookupFindsUpperCasedBadge | components/Auth.tsx:97-107 | in a well-formed registry a hit is the officer whose id is the upper-cased badge; a miss happens exactly when neither the seeds nor the self-registered map hold that key |
| AuthFlow.SelfRegisteredWins | components/Auth.tsx:86-90 | a self-registered officer shadows the seed with the same badge |
| AuthFlow.LowerCaseBorderAgentBadge | components/Auth.tsx:15 | "dgm-ba" resolves to the seeded border agent with clearance 2, unless a self-registered officer holds that badge |
| AuthFlow.RegistrationError | components/Auth.tsx:110-121 | the missing-fields error is returned exactly when a field is empty; the badge-taken error exactly when all fields are filled and the upper-cased badge is registered; no error exactly otherwise |
| AuthFlow.NewOfficer | components/Auth.tsx:126-133 | the new officer's id is the upper-cased badge, its clearance is 1, and its name, role and location are the submitted ones |
| AuthFlow.EnrolledOfficerCanSignIn | components/Auth.tsx:141-149 | after an accepted enrolment is written, its badge (in any case) finds the new officer, every badge that resolved before still resolves to the same officer, and exactly one key is added |
| AuthFlow.Lookup | components/Auth.tsx:97-99 | definition: the merged registry's entry under the upper-cased badge, if any; see LookupIgnoresCase, LookupFindsUpperCasedBadge and SelfRegisteredWins |
| AuthFlow.EnrolmentKeepsRegistryWellFormed | components/Auth.tsx:126-148 | writing a new officer under its id keeps every key upper-case and naming its own officer |
| AuthFlow.LookedUpWriteKeepsWellFormed | components/Auth.tsx:141-149 | an enrolment completion that writes an officer found by a sign-in lookup also keeps every key upper-case and naming its own officer, so both kinds of registry write preserve well-formedness |
| AuthFlow.EmergencyUser | components/Auth.tsx:214-224 | the override is EMERGENCY-001, "EMERGENCY OVERRIDE", director-general, clearance 5, location UNKNOWN, emergency mode on |
| AuthFlow.EmergencyUserOutranksSeeds | components/Auth.tsx:214-224 | the override's id is no seeded badge, and its clearance equals the highest seeded clearance |
| AuthFlow.SanitizeToken | components/Auth.tsx:452 | the token field holds at most six characters, all digits, and is a prefix of the typed digits: all of them, or the first six |
| AuthFlow.TypingExtendsToken | components/Auth.tsx:452 | typing one more character appends it when it is a digit and the field holds fewer than six; otherwise the field is unchanged |
| AuthFlow.SanitizeTokenIdempotent | components/Auth.tsx:452 | sanitising the field's own content changes nothing |
| AuthFlow.TypedCodeAccepted | components/Auth.tsx:201-212 | four to six typed digits pass through the field unchanged and pass the length check |
| AuthFlow.Controller.constructor | components/Auth.tsx:20-57 | the screen opens in sign-in mode at the identity step, not loading, with no error and no candidate |
| AuthFlow.Controller.SwitchMode | components/Auth.tsx:226-231 | the mode is set, the step returns to identity, and the error and the candidate are cleared |
| AuthFlow.Controller.OpenEmergency | components/Auth.tsx:308-313 | from the sign-in identity step, where the link is offered, the emergency step is shown |
| AuthFlow.Controller.CancelEmergency | components/Auth.tsx:497 | back to the identity step |
| AuthFlow.Controller.SubmitIdentity | components/Auth.tsx:92-107 | the error is cleared, loading starts, and the lookup of that badge is scheduled |
| AuthFlow.Controller.SubmitRegistration | components/Auth.tsx:110-139 | offered only while not loading, as the disabled enrolment button (line 369) is; a failed check sets its error and schedules nothing; a passed check clears the error, starts loading and schedules the account creation; the registry is not written |
| AuthFlow.Controller.StartBiometric | components/Auth.tsx:151-199 | enrolment mode always schedules the enrolment completion, holding the candidate of the moment; sign-in mode goes to MFA on a credential, stays with the cancellation error on NotAllowedError, and otherwise schedules the simulated scan |
| AuthFlow.Controller.SubmitMfa | components/Auth.tsx:201-212 | a code shorter than four is refused with "Invalid Token Code"; otherwise the sign-in of the candidate of the moment is scheduled |
| AuthFlow.Controller.EmergencyAccess | components/Auth.tsx:214-224 | the override identity is granted at once, without reading or writing the registry |
| AuthFlow.Controller.Fire | components/Auth.tsx:92-212 | lookup: on a hit the candidate is set and the step becomes biometric, and on a miss the invalid-badge error is set; account creation: the new officer becomes the candidate at the biometric step; enrolment completion: the candidate its callback captured is written under its id and signed in; simulated scan: MFA step; token: the candidate its callback captured is signed in; the screen's current candidate plays no part in the last two |
| AuthFlow.Controller.FinalizeRegistration | components/Auth.tsx:141-149 | the captured candidate, when present, is written under its id, with every other key untouched, and is signed in; with no candidate nothing happens |
| AuthFlow.EnrolNewOfficer | components/Auth.tsx:110-149 | enrolling DGM-XX ends with that officer signed in at clearance 1, and the registry holding exactly that officer |
| AuthFlow.BorderAgentFallbackSignIn | components/Auth.tsx:92-212 | "dgm-ba" with no platform credential, then the fallback scan and token "1234", signs in the seeded border agent |
| AuthFlow.EmergencyFromErrorState | components/Auth.tsx:214-224 | after a failed lookup, the override signs in with emergency mode on and the registry untouched |
| AuthFlow.EnrolmentKeepsCapturedCandidate | components/Auth.tsx:151-160 | after an enrolment is submitted, a badge lookup sent with the Enter key from the sign-in screen (which loading does not block) and a switch back to enrolment, a stale lookup landing between the biometric click and the enrolment completion changes the screen's candidate, but the enrolment still writes and signs in the officer being enrolled |
| AuthFlow.LookupCompletingAfterModeSwitch | components/Auth.tsx:97-107 | a lookup that completes after a switch to enrolment mode ends with the seeded officer written into the registry and signed in, with no token check |
| Shell.Visible | App.tsx:66-69 | definition of the filter's test: an entry without a role list is shown to everyone, and one with a list only to a signed-in officer whose role it names |
| Shell.Menu | App.tsx:66-69 | definition of the role filter over the table, in order; see MenuMembership and MenuIsSublist |
| Shell.AuthorizedNavItems | App.tsx:66-69 | definition: the table filtered for the current officer's role, or for nobody when signed out |
| Shell.MenuMembership | App.tsx:66-69 | an entry is on the menu exactly when it is in the table and is public or lists the signed-in officer's role |
| Shell.MenuIsSublist | App.tsx:66-69 | the menu is the table with entries dropped and the order kept |
| Shell.MenuIdempotent | App.tsx:66-69 | filtering the menu again for the same role gives the same menu |
| Shell.MenuKeepsAll | App.tsx:66-69 | when every entry is visible to the role, the menu is the whole table |
| Shell.PublicEntryAlwaysListed | App.tsx:67 | an entry without a role list is on every menu, signed in or not |
| Shell.RestrictedEntryListedIff | App.tsx:68 | a restricted entry is listed exactly when an officer is signed in and the entry lists that officer's role |
| Shell.MenuStable | App.tsx:66-69 | the menu is an ordered sublist of the table, depends only on the role, and is unchanged by filtering again |
| Shell.DashboardAlwaysAuthorized | constants.ts:23-28 | the dashboard is on every menu |
| Shell.SignedOutMenu | App.tsx:66-69 | with nobody signed in, the menu is the dashboard alone |
| Shell.DirectorGeneralMenu | constants.ts:33-125 | the director-general's menu is the whole table |
| Shell.AuditorMenu | constants.ts:64-74 | an auditor's menu is exactly the dashboard and finance |
| Shell.BorderAgentMenu | constants.ts:29-52 | a border agent's menu is exactly the dashboard, border control and the foreigner registry |
| Shell.SettingsMenu | constants.ts:118-126 | settings is on the menu exactly for the system administrator and the director-general |
| Shell.RenderView | App.tsx:71-84 | the placeholder is shown for the settings view and for no other view |
| Shell.RenderViewInjective | App.tsx:71-84 | distinct views mount distinct modules |
| Shell.App.Mount | App.tsx:26-31 | a stored officer is restored as the signed-in session; with none the shell is signed out on the dashboard |
| Shell.App.HandleLogin | App.tsx:39-43 | the officer becomes the current user and the session is signed in and stored; the view is unchanged, which on a first sign-in is the dashboard, and a repeated call for the officer already signed in changes nothing |
| Shell.RepeatedSignInCallback | components/Auth.tsx:459-464 | a second sign-in callback for the signed-in border agent, as a double click on the token button schedules, leaves the shell on the view it was showing |
| Shell.App.HandleLogout | App.tsx:45-50 | the user and the stored session are cleared, the session is signed out, and the view is the dashboard |
| Shell.App.Navigate | App.tsx:127-128 | choosing a menu entry makes it the current view, and the view stays one the menu offers |
| Shell.App.Render | App.tsx:71-84 | the module shown is the view's module, and the placeholder appears only for a system administrator or the director-general, since only they can reach settings (under the shell invariant; see Shell.App.HandleLogin in Left out) |
| Shell.BorderAgentSignIn | App.tsx:39-69 | the border agent the sign-in flow grants becomes the current user, at clearance 2, with the dashboard, border-control and foreigner-registry menu |
| DocumentScanner.QrAutoScanArmed | components/Verification.tsx:100 | definition of the detection gate's state part: QR mode, not scanning, idle and not in manual entry |
| DocumentScanner.VideoMounted | components/Verification.tsx:210-222 | definition: the live video element is on the page exactly in camera view with the permission granted and outside demo mode |
| DocumentScanner.QrPayload | components/Verification.tsx:136-137 | the stored QR value is never empty: the payload when it is non-empty, the default pass id otherwise |
| DocumentScanner.ClassifyCameraError | components/Verification.tsx:66-73 | a failure is a permission error exactly for NotAllowedError and PermissionDeniedError |
| DocumentScanner.Scanner.constructor | components/Verification.tsx:21-30 | the scanner opens idle, not scanning, permission pending, no error, neither demo nor manual, passport mode, empty entry and no results |
| DocumentScanner.Scanner.StartCamera | components/Verification.tsx:33-75 | demo mode is switched off; no media API gives denied with a device error; a stream gives granted with no error; a failure gives denied with its classified error |
| DocumentScanner.Scanner.ActivateDemoMode | components/Verification.tsx:170-173 | from camera view after a device error, where the button is offered, demo mode is on and the permission is granted |
| DocumentScanner.Scanner.SetScanMode | components/Verification.tsx:250-256 | the scan mode is the one chosen |
| DocumentScanner.Scanner.EditManualId | components/Verification.tsx:400 | the entry holds the typed text, upper-cased |
| DocumentScanner.Scanner.HandleScan | components/Verification.tsx:124-130 | with neither a granted permission nor demo mode nothing changes; otherwise scanning starts, the MRZ is cleared, and a capture in the current mode is scheduled |
| DocumentScanner.Scanner.DetectQr | components/Verification.tsx:98-121 | a detected code starts a scan exactly when the detector is present, the live video is mounted (camera view, permission granted, not demo mode) and ready, and the gate is armed (QR mode, idle, not scanning); otherwise nothing changes, so demo mode never auto-detects |
| DocumentScanner.Scanner.HandleManualVerify | components/Verification.tsx:159-168 | a blank entry does nothing; otherwise scanning starts, manual mode is on, the MRZ is cleared, and completion with that id is scheduled |
| DocumentScanner.Scanner.Reset | components/Verification.tsx:175-180 | back to idle with the entry, the detected data and the MRZ cleared; both modes are kept |
| DocumentScanner.Scanner.ToggleManualMode | components/Verification.tsx:182-187 | manual mode flips, back to idle with the entry and the MRZ cleared |
| DocumentScanner.Scanner.Fire | components/Verification.tsx:132-167 | every completion ends in success; a QR capture stores its payload or the default; a passport capture stores "PASSPORT DETECTED" and the fixed MRZ; a manual completion stores the entered id |
| DocumentScanner.DeniedCameraBlocksScan | components/Verification.tsx:124-130 | a refused camera is reported as a permission error, and a scan request then does nothing |
| DocumentScanner.DeviceErrorThenDemoQr | components/Verification.tsx:170-173 | after a device error, simulation mode makes the scan button work and a QR scan with no payload yields the default pass id, while the polling detector starts nothing |
| DocumentScanner.BlankEntryIgnored | components/Verification.tsx:159-168 | in manual entry, a typed id of only a space and a tab starts no verification and manual entry stays open |
| DocumentScanner.ManualEntry | components/Verification.tsx:159-168 | in manual entry, "cod-0042" is upper-cased and becomes the detected data |
| ForeignerRegistry.MockProfiles | components/ForeignerManagement.tsx:25-65 | definition: the three seeded profiles, without their photos |
| ForeignerRegistry.Matches | components/ForeignerManagement.tsx:73-76 | definition of the search test: the lower-cased name or passport includes the lower-cased query |
| ForeignerRegistry.Search | components/ForeignerManagement.tsx:73-76 | definition of the filtered listing, in registry order; see SearchMembership and SearchIsSublist |
| ForeignerRegistry.SearchMembership | components/ForeignerManagement.tsx:73-76 | a profile is listed exactly when it is registered and its lower-cased name or passport includes the lower-cased query |
| ForeignerRegistry.SearchIsSublist | components/ForeignerManagement.tsx:73-76 | the listing is the registry with profiles dropped and the order kept |
| ForeignerRegistry.EmptyQueryListsAll | components/ForeignerManagement.tsx:73-76 | an empty query lists every profile, in order |
| ForeignerRegistry.SearchIgnoresCase | components/ForeignerManagement.tsx:73-76 | queries that agree once lower-cased list the same profiles |
| ForeignerRegistry.UpperCasedQueryListsSame | components/ForeignerManagement.tsx:73-76 | typing the query in capitals lists the same profiles |
| ForeignerRegistry.OverlongQueryListsNothing | components/ForeignerManagement.tsx:73-76 | a query longer than every name and every passport number lists nothing |
| ForeignerRegistry.RiskBand | components/ForeignerManagement.tsx:489-490 | a score above 70 is red, above 30 and up to 70 is orange, and 30 or below is green |
| ForeignerRegistry.HighFlightRisk | components/ForeignerManagement.tsx:366 | definition of the alert's test: a score above 70 |
| ForeignerRegistry.FlightRiskIsRedBand | components/ForeignerManagement.tsx:358-366 | the high-flight-risk alert shows exactly when the score is in the red band |
| ForeignerRegistry.RiskBandMonotone | components/ForeignerManagement.tsx:358-361 | a higher score never gets a milder colour |
| ForeignerRegistry.StatusBadgeTone | components/ForeignerManagement.tsx:239-240 | the status badge is green exactly for a valid visa, orange exactly for a warning, and red otherwise |
| ForeignerRegistry.StayBarTone | components/ForeignerManagement.tsx:285-289 | the stay bar is red exactly for an overstay, orange exactly for a warning, and green otherwise |
| ForeignerRegistry.ToneDisagreementOnlyOnHighRisk | components/ForeignerManagement.tsx:285-289 | the badge and the stay bar differ only for the high-risk status, which the badge shows red and the bar green |
| ForeignerRegistry.DigitalDossier | components/ForeignerManagement.tsx:225-366 | no dossier without a selection; otherwise it shows the selected profile with the badge and stay-bar colours of its status, the full bar and the expired-visa banner exactly for an overstay, the risk colour of its score, and the flight-risk alert exactly above 70 |
| ForeignerRegistry.OverstayDossier | components/ForeignerManagement.tsx:285-366 | the seeded overstay profile (score 88) shows red everywhere, the full bar, the expired-visa banner and the flight-risk alert |
| ForeignerRegistry.RegistryScreen.Listed | components/ForeignerManagement.tsx:73-76 | the rows are exactly the registered profiles that match the current query |
| ForeignerRegistry.RegistryScreen.constructor | components/ForeignerManagement.tsx:68-71 | the screen opens on the list, with no selection, wizard page one, an empty query, and every profile listed |
| ForeignerRegistry.RegistryScreen.EditSearch | components/ForeignerManagement.tsx:431 | the query is the typed text |
| ForeignerRegistry.RegistryScreen.SelectProfile | components/ForeignerManagement.tsx:78-81 | the clicked profile is selected, the dossier view is shown, and the dossier has something to render |
| ForeignerRegistry.RegistryScreen.BeginRegistration | components/ForeignerManagement.tsx:414-417 | the wizard opens at page one |
| ForeignerRegistry.RegistryScreen.ConfirmDocument | components/ForeignerManagement.tsx:135 | the wizard moves to page two |
| ForeignerRegistry.RegistryScreen.SaveBiometrics | components/ForeignerManagement.tsx:175 | the wizard moves to page three |
| ForeignerRegistry.RegistryScreen.CompleteRegistration | components/ForeignerManagement.tsx:209-212 | back to the list at page one, with the listing unchanged: no profile is added |
| ForeignerRegistry.RegistryScreen.BackToRegistry | components/ForeignerManagement.tsx:97 | back to the list |
| ForeignerRegistry.RegistrationAddsNoProfile | components/ForeignerManagement.tsx:209-212 | walking the whole wizard leaves the listing equal to the seeded profiles, and the screen on the list |
| VisaWizard.NextStep | components/VisaServices.tsx:165 | Continue goes one page on below the last page and back to page one from it, and never leaves pages 1 to 4 |
| VisaWizard.PrevStep | components/VisaServices.tsx:158 | Back goes one page back above page one, does nothing on page one, and never leaves pages 1 to 4 |
| VisaWizard.BackUndoesContinue | components/VisaServices.tsx:157-166 | Back undoes a Continue that did not submit, and Continue undoes a Back that moved |
| VisaWizard.FourContinuesCycle | components/VisaServices.tsx:165-168 | four Continues return to the starting page, passing the submitting last page exactly once |
| VisaWizard.StepMarker | components/VisaServices.tsx:45-57 | marker s is highlighted exactly when the page is s or later, done exactly when the page is past s, and its connector is filled exactly when it is done |
| VisaWizard.MarkersAroundCurrent | components/VisaServices.tsx:45-57 | earlier pages show done, the current page highlighted but not done, later pages neither; a Continue that does not submit marks exactly the page it leaves as done |
| VisaWizard.OneCurrentMarker | components/VisaServices.tsx:45-50 | exactly one of the four markers is the current page |
| VisaWizard.ApplicationWizard.constructor | components/VisaServices.tsx:17-24 | the wizard opens on page one, not loading, with an empty form |
| VisaWizard.ApplicationWizard.Back | components/VisaServices.tsx:157-159 | the page becomes the previous page, and stays within 1 to 4 |
| VisaWizard.ApplicationWizard.Continue | components/VisaServices.tsx:164-168 | the page becomes the next page, and the application is submitted exactly when Continue is pressed on page four |
| VisaWizard.ApplicationWizard.SimulateAutofill | components/VisaServices.tsx:26-28 | a click while loading does nothing (the button is disabled); otherwise loading starts and the completion is scheduled |
| VisaWizard.ApplicationWizard.CompleteAutofill | components/VisaServices.tsx:28-36 | the form holds MICHAEL, KABEYA, COD-998273-X, CONGOLESE, and loading stops |
| VisaWizard.SubmitApplication | components/VisaServices.tsx:157-168 | a second autofill click is ignored; of four Continues only the fourth submits, and the wizard ends on page one with the scanned form |

## Left out

- The device fingerprint (`components/Auth.tsx:43-48`): it depends on the user agent, the screen size and base64.
- The camera preview of the biometric step, the stream teardown in the scanner, the scan-line and audio-level animations, the emergency theme, and all CSS.
- The WebAuthn challenge and its request are left out; only the outcome is modelled, as `AuthenticatorOutcome`. The `hasBiometrics` flag is fixed when the controller is created, whereas the source fills it in asynchronously after mount.
- JSON serialisation of local storage, and races between tabs writing it. A single writer is assumed, so the controller's `registered` map stands for the stored registry.
- The profile-picture upload (`App.tsx:52-63`) and the mobile-menu flag.
- The Intelligence, Dashboard, Finance, Operations, Analytics and Communication modules. They are mock data and charts with nothing to state; the shell model only names which module is mounted.
- Text.ToUpper: maps ASCII letters only; JavaScript's `toUpperCase`/`toLowerCase` also map non-ASCII letters.
- DocumentScanner.Scanner.StartCamera: one atomic step. The intermediate "pending" permission during the request, and the fallback from the rear camera to any camera, both end in a stream or a failure, which is all the model keeps.
- DocumentScanner.Scanner.DetectQr: reads the current permission and demo flag. In the source, the polling closure holds the values from the render in which the interval was last set up, so a permission granted while QR mode is already on can leave the closure refusing the scan; the model lets it start.
- Shell.App.HandleLogin: requires that a sign-in arriving while signed in is for the officer already signed in. A pending callback for a different officer would leave the shell on a view that officer's menu may not offer, which the shell invariant excludes.
- DocumentScanner.Scanner.ActivateDemoMode, AuthFlow.Controller.OpenEmergency and AuthFlow.Controller.SubmitRegistration: their requires state where the page offers the button or link, or that it is not disabled; the model does not derive the page layout from the state.
- DocumentScanner.Scanner.ToggleManualMode: the camera restart that follows a switch back to camera mode is a separate `StartCamera` call.
- The MRZ record is a fixed value; no machine-readable-zone parsing or check digits are involved.
- Timers are events, not time. A completion runs whenever `Fire` is called, and a completion arriving after its screen was unmounted is not distinguished.
- The tabs of the visa screen other than the application wizard (appointments, issuance), which are static.
