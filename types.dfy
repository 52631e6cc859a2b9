/** The shared records and enumerations of the application. */
module Types {

  datatype Option<T> = None | Some(value: T)

  /** The seven officer roles. */
  datatype UserRole =
    | DirectorGeneral
    | ZoneCommander
    | SeniorInspector
    | BorderAgent
    | IntelligenceOfficer
    | SystemAdmin
    | Auditor

  /** An officer record. `isEmergencyMode` is set only on the emergency override user. */
  datatype User = User(
    id: string,
    name: string,
    role: UserRole,
    clearanceLevel: int,
    location: string,
    isEmergencyMode: Option<bool>)

  /** The ten views the application shell can show. */
  datatype AppView =
    | Dashboard
    | Verification
    | Foreigners
    | VisaServices
    | Analytics
    | Operations
    | Finance
    | Intelligence
    | Communication
    | Settings

  /** A navigation entry (`caption` is the source's `label`); an entry without `allowedRoles` is public. The icon is left out. */
  datatype NavItem = NavItem(id: AppView, caption: string, allowedRoles: Option<seq<UserRole>>)
}
