/** The navigation table: one entry per view, each with the roles allowed to see it. */
module NavTable {
  import opened Types

  function NavItems(): seq<NavItem> {
    [ NavItem(Dashboard, "Command Center", None),
      NavItem(Verification, "Border Control",
        Some([BorderAgent, SeniorInspector, ZoneCommander, DirectorGeneral, SystemAdmin])),
      NavItem(Foreigners, "Police Étrangers",
        Some([SeniorInspector, ZoneCommander, DirectorGeneral, IntelligenceOfficer, BorderAgent])),
      NavItem(VisaServices, "Chancellerie",
        Some([SeniorInspector, ZoneCommander, DirectorGeneral, SystemAdmin])),
      NavItem(Finance, "Finance",
        Some([DirectorGeneral, ZoneCommander, SystemAdmin, Auditor])),
      NavItem(Operations, "Ops Center",
        Some([DirectorGeneral, ZoneCommander, SystemAdmin])),
      NavItem(Analytics, "Analytics Hub",
        Some([DirectorGeneral, ZoneCommander, IntelligenceOfficer, SystemAdmin])),
      NavItem(Communication, "Comms Hub",
        Some([ZoneCommander, DirectorGeneral, SeniorInspector, IntelligenceOfficer])),
      NavItem(Intelligence, "DGM Intelligence",
        Some([IntelligenceOfficer, SeniorInspector, ZoneCommander, DirectorGeneral])),
      NavItem(Settings, "System Config",
        Some([SystemAdmin, DirectorGeneral]))
    ]
  }

  /** The view ids of a list of entries, in order. */
  function NavIds(items: seq<NavItem>): (ids: seq<AppView>)
    ensures |ids| == |items|
    ensures forall i :: 0 <= i < |items| ==> ids[i] == items[i].id
  {
    seq(|items|, i requires 0 <= i < |items| => items[i].id)
  }

  lemma IdListed(items: seq<NavItem>, item: NavItem)
    requires item in items
    ensures item.id in NavIds(items)
  {
    var i :| 0 <= i < |items| && items[i] == item;
    assert NavIds(items)[i] == item.id;
  }

  /** Ten entries, pairwise distinct ids, and every view has an entry. */
  lemma OneEntryPerView()
    ensures |NavItems()| == 10
    ensures forall i, j :: 0 <= i < j < |NavItems()| ==> NavItems()[i].id != NavItems()[j].id
    ensures forall v: AppView :: v in NavIds(NavItems())
  {
    var ids := NavIds(NavItems());
    assert ids == [Dashboard, Verification, Foreigners, VisaServices, Finance,
                   Operations, Analytics, Communication, Intelligence, Settings];
    forall v: AppView ensures v in ids {
      match v
      case Dashboard => assert ids[0] == v;
      case Verification => assert ids[1] == v;
      case Foreigners => assert ids[2] == v;
      case VisaServices => assert ids[3] == v;
      case Finance => assert ids[4] == v;
      case Operations => assert ids[5] == v;
      case Analytics => assert ids[6] == v;
      case Communication => assert ids[7] == v;
      case Intelligence => assert ids[8] == v;
      case Settings => assert ids[9] == v;
    }
  }

  /** The dashboard entry is the only public one. */
  lemma OnlyDashboardIsPublic()
    ensures NavItems()[0].id == Dashboard && NavItems()[0].allowedRoles.None?
    ensures forall i :: 0 <= i < |NavItems()| && NavItems()[i].allowedRoles.None? ==> NavItems()[i].id == Dashboard
  {
  }

  /** The director-general is listed in every restricted entry. */
  lemma DirectorGeneralInEveryRestrictedEntry()
    ensures forall i :: 0 <= i < |NavItems()| && NavItems()[i].allowedRoles.Some? ==>
      DirectorGeneral in NavItems()[i].allowedRoles.value
  {
  }

  /** The settings entry is the last one, and no other entry has its id. */
  lemma SettingsEntryUnique(item: NavItem)
    requires item in NavItems() && item.id == Settings
    ensures item == NavItems()[9]
  {
  }

  /** The settings entry admits exactly the system administrator and the director-general. */
  lemma SettingsRoles()
    ensures NavItems()[9].id == Settings
    ensures NavItems()[9].allowedRoles.Some?
    ensures forall r: UserRole :: r in NavItems()[9].allowedRoles.value <==> r == SystemAdmin || r == DirectorGeneral
  {
  }
}
