/** The translated labels the screens show for enumeration values: each
    call site turns the value into a key (lowercasing it, and for pages and
    roles also removing spaces) and passes the key to `t`. */
module Labels {
  import opened Types
  import opened Localization

  /** The shell's header title for the current page: exactly the
      Dashboard, Live Monitoring and System Health titles show their raw
      key, because "dashboard", "livemonitoring" and "systemhealth" are
      not in the tables. */
  function PageTitle(l: Language, p: Page): (title: string)
    ensures title == PageKey(p) <==> p in {Dashboard, LiveMonitoring, Health}
  {
    PageKeyFallsBackExactly(l, p);
    T(l, PageKey(p))
  }

  /** The caption under the signed-in user's name: always a translation,
      never the raw key. */
  function RoleCaption(l: Language, r: Role): (caption: string)
    ensures caption != RoleKey(r)
  {
    RoleKeyOf(r);
    RoleLabelKeysPresent(l);
    T(l, RoleKey(r))
  }

  /** The badge text for a severity: no severity key is in the tables, so
      every badge shows its raw key. */
  function SeverityLabel(l: Language, s: Severity): (badge: string)
    ensures badge == SeverityKey(s)
  {
    SeverityKeyFallsBack(l, s);
    T(l, SeverityKey(s))
  }

  /** The badge text for a status: exactly Notified, In Investigation and
      Dismissed show their raw key; "In Investigation" misses the
      "investigation" entry because its space is kept. */
  function StatusLabel(l: Language, s: Status): (badge: string)
    ensures badge == StatusKey(s) <==> s in {Notified, InInvestigation, Dismissed}
  {
    StatusKeyFallsBackExactly(l, s);
    T(l, StatusKey(s))
  }

  // Which literal keys have an English entry; `SameKeySet` carries each
  // fact over to Arabic.

  lemma NavKeysListed()
    ensures HasEntry(En, "alerts") && HasEntry(En, "incidents") && HasEntry(En, "ergonomics")
  {
  }

  lemma MoreNavKeysListed()
    ensures HasEntry(En, "analytics") && HasEntry(En, "cameras") && HasEntry(En, "users")
  {
  }

  lemma StatusKeysListed()
    ensures HasEntry(En, "new") && HasEntry(En, "acknowledged")
  {
  }

  lemma MoreStatusKeysListed()
    ensures HasEntry(En, "resolved") && HasEntry(En, "active")
  {
  }

  lemma NoLiveMonitoringEntry() ensures !HasEntry(En, "livemonitoring") {}

  lemma NoSystemHealthEntry() ensures !HasEntry(En, "systemhealth") {}

  lemma NoMediumEntry() ensures !HasEntry(En, "medium") {}

  lemma NoLowEntry() ensures !HasEntry(En, "low") {}

  lemma NoNotifiedEntry() ensures !HasEntry(En, "notified") {}

  lemma NoInInvestigationEntry() ensures !HasEntry(En, "in investigation") {}

  /** Whether a key is found is the same in both languages. */
  lemma EntryInBothLanguages(l: Language, key: string)
    ensures HasEntry(l, key) <==> HasEntry(En, key)
  {
    SameKeySet(key);
  }

  lemma PageKeyFallsBackExactly(l: Language, p: Page)
    ensures T(l, PageKey(p)) == PageKey(p) <==> p in {Dashboard, LiveMonitoring, Health}
  {
    PageKeyOf(p);
    FallbackExactlyOnAbsentKeys(l, PageKey(p));
    EntryInBothLanguages(l, PageKey(p));
    match p
    case Dashboard => NoDashboardEntry();
    case LiveMonitoring => NoLiveMonitoringEntry();
    case Health => NoSystemHealthEntry();
    case Alerts => NavKeysListed();
    case Incidents => NavKeysListed();
    case Ergonomics => NavKeysListed();
    case Reports => MoreNavKeysListed();
    case Cameras => MoreNavKeysListed();
    case Users => MoreNavKeysListed();
  }

  /** The Reports page is titled by the "analytics" key, which is the
      sidebar's "Data & Reports" heading, not the "reports" entry. */
  lemma ReportsTitleIsAnalyticsHeading(l: Language)
    ensures PageTitle(l, Reports) == T(l, "analytics")
    ensures PageTitle(l, Reports) != T(l, "reports")
    ensures PageTitle(En, Reports) == "Data & Reports"
  {
    ReportsPageKey();
    EnglishAnalyticsEntry();
    EnglishReportsEntry();
    ArabicAnalyticsEntry();
    ArabicReportsEntry();
  }

  lemma EnglishAnalyticsEntry() ensures T(En, "analytics") == "Data & Reports" {}

  lemma EnglishReportsEntry() ensures T(En, "reports") == "Analytics" {}

  lemma ArabicAnalyticsEntry() ensures T(Ar, "analytics") == "البيانات والتقارير" {}

  lemma ArabicReportsEntry() ensures T(Ar, "reports") == "التحليلات" {}

  lemma EnglishRoleEntries()
    ensures T(En, "admin") == "System Admin"
    ensures T(En, "safetyengineer") == "Safety Engineer"
    ensures T(En, "dataanalyst") == "Data Analyst"
  {
  }

  /** The English captions of the three roles. */
  lemma EnglishRoleCaptions()
    ensures RoleCaption(En, Admin) == "System Admin"
    ensures RoleCaption(En, SafetyEngineer) == "Safety Engineer"
    ensures RoleCaption(En, DataAnalyst) == "Data Analyst"
  {
    EnglishRoleEntries();
    AdminKey();
    SafetyEngineerKey();
    DataAnalystKey();
  }

  lemma SeverityKeyFallsBack(l: Language, s: Severity)
    ensures T(l, SeverityKey(s)) == SeverityKey(s)
  {
    SeverityKeys();
    match s
    case High => NoHighEntry(); FallbackWithoutEnglishEntry(l, "high");
    case Medium => NoMediumEntry(); FallbackWithoutEnglishEntry(l, "medium");
    case Low => NoLowEntry(); FallbackWithoutEnglishEntry(l, "low");
  }

  lemma StatusKeyFallsBackExactly(l: Language, s: Status)
    ensures T(l, StatusKey(s)) == StatusKey(s) <==> s in {Notified, InInvestigation, Dismissed}
  {
    StatusKeys();
    FallbackExactlyOnAbsentKeys(l, StatusKey(s));
    EntryInBothLanguages(l, StatusKey(s));
    match s
    case Notified => NoNotifiedEntry();
    case InInvestigation => NoInInvestigationEntry();
    case Dismissed => NoDismissedEntry();
    case New => StatusKeysListed();
    case Acknowledged => StatusKeysListed();
    case Resolved => MoreStatusKeysListed();
    case Active => MoreStatusKeysListed();
  }
}
