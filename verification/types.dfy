/** The closed enumerations the session and localisation logic range over,
    with the string value each member carries in the source and the
    translation key derived from that value at the call sites. */
module Types {
  import opened Text

  /** `UserRole`: a string-literal union of exactly three values. */
  datatype Role = Admin | SafetyEngineer | DataAnalyst

  function RoleValue(r: Role): string
  {
    match r
    case Admin => "Admin"
    case SafetyEngineer => "Safety Engineer"
    case DataAnalyst => "Data Analyst"
  }

  /** Distinct roles carry distinct strings, so the source's string
      comparisons on roles decide role equality. */
  lemma RoleValueInjective(a: Role, b: Role)
    ensures RoleValue(a) == RoleValue(b) <==> a == b
  {
  }

  /** The key used to label a role: lowercase with spaces removed. */
  function RoleKey(r: Role): (k: string)
    ensures ' ' !in k && NoUpperAscii(k)
    ensures |k| <= |RoleValue(r)|
  {
    NormalizeKey(RoleValue(r))
  }

  /** Each role normalises to the key the translation tables use for it. */
  lemma RoleKeyOf(r: Role)
    ensures RoleKey(r) == match r
      case Admin => "admin"
      case SafetyEngineer => "safetyengineer"
      case DataAnalyst => "dataanalyst"
  {
    match r
    case Admin => AdminKey();
    case SafetyEngineer => SafetyEngineerKey();
    case DataAnalyst => DataAnalystKey();
  }

  lemma AdminKey() ensures RoleKey(Admin) == "admin"
  {
    NormalizeOneWord("Admin", "admin");
  }

  lemma SafetyEngineerKey() ensures RoleKey(SafetyEngineer) == "safetyengineer"
  {
    NormalizeTwoWords("Safety Engineer", "safety", "engineer");
  }

  lemma DataAnalystKey() ensures RoleKey(DataAnalyst) == "dataanalyst"
  {
    assert ToLower("Data Analyst") == "data analyst";
    NormalizeTwoWords("Data Analyst", "data", "analyst");
  }

  /** Normalisation keeps the three roles apart. */
  lemma RoleKeyInjective(a: Role, b: Role)
    ensures RoleKey(a) == RoleKey(b) <==> a == b
  {
    RoleKeyOf(a);
    RoleKeyOf(b);
  }

  /** `Page`: a string enum of nine members. */
  datatype Page =
    | Dashboard | LiveMonitoring | Alerts | Incidents | Ergonomics
    | Reports | Cameras | Health | Users

  /** The enum members in declaration order. */
  const AllPages: seq<Page> :=
    [Dashboard, LiveMonitoring, Alerts, Incidents, Ergonomics, Reports, Cameras, Health, Users]

  /** `Page` has exactly nine members, each listed once in `AllPages`. */
  lemma AllPagesEnumerates(p: Page)
    ensures p in AllPages
    ensures |AllPages| == 9
    ensures forall i, j :: 0 <= i < j < |AllPages| ==> AllPages[i] != AllPages[j]
  {
  }

  function PageValue(p: Page): string
  {
    match p
    case Dashboard => "Dashboard"
    case LiveMonitoring => "Live Monitoring"
    case Alerts => "Alerts"
    case Incidents => "Incidents"
    case Ergonomics => "Ergonomics"
    case Reports => "Analytics"
    case Cameras => "Cameras"
    case Health => "System Health"
    case Users => "Users"
  }

  /** The nine string values are pairwise distinct. */
  lemma PageValueInjective(p: Page, q: Page)
    ensures PageValue(p) == PageValue(q) <==> p == q
  {
  }

  /** The page header key: the page's string value lowercased, spaces removed. */
  function PageKey(p: Page): (k: string)
    ensures ' ' !in k && NoUpperAscii(k)
    ensures |k| <= |PageValue(p)|
  {
    NormalizeKey(PageValue(p))
  }

  /** The header key of every page, spelled out. */
  lemma PageKeyOf(p: Page)
    ensures PageKey(p) == match p
      case Dashboard => "dashboard"
      case LiveMonitoring => "livemonitoring"
      case Alerts => "alerts"
      case Incidents => "incidents"
      case Ergonomics => "ergonomics"
      case Reports => "analytics"
      case Cameras => "cameras"
      case Health => "systemhealth"
      case Users => "users"
  {
    match p
    case Dashboard => DashboardPageKey();
    case LiveMonitoring => LiveMonitoringPageKey();
    case Alerts => AlertsPageKey();
    case Incidents => IncidentsPageKey();
    case Ergonomics => ErgonomicsPageKey();
    case Reports => ReportsPageKey();
    case Cameras => CamerasPageKey();
    case Health => HealthPageKey();
    case Users => UsersPageKey();
  }

  lemma DashboardPageKey() ensures PageKey(Dashboard) == "dashboard"
  {
    NormalizeOneWord("Dashboard", "dashboard");
  }

  lemma LiveMonitoringPageKey() ensures PageKey(LiveMonitoring) == "livemonitoring"
  {
    NormalizeTwoWords("Live Monitoring", "live", "monitoring");
  }

  lemma AlertsPageKey() ensures PageKey(Alerts) == "alerts"
  {
    NormalizeOneWord("Alerts", "alerts");
  }

  lemma IncidentsPageKey() ensures PageKey(Incidents) == "incidents"
  {
    NormalizeOneWord("Incidents", "incidents");
  }

  lemma ErgonomicsPageKey() ensures PageKey(Ergonomics) == "ergonomics"
  {
    NormalizeOneWord("Ergonomics", "ergonomics");
  }

  lemma ReportsPageKey() ensures PageKey(Reports) == "analytics"
  {
    NormalizeOneWord("Analytics", "analytics");
  }

  lemma CamerasPageKey() ensures PageKey(Cameras) == "cameras"
  {
    NormalizeOneWord("Cameras", "cameras");
  }

  lemma HealthPageKey() ensures PageKey(Health) == "systemhealth"
  {
    NormalizeTwoWords("System Health", "system", "health");
  }

  lemma UsersPageKey() ensures PageKey(Users) == "users"
  {
    NormalizeOneWord("Users", "users");
  }

  /** Normalisation stays injective on pages. */
  lemma PageKeyInjective(p: Page, q: Page)
    ensures PageKey(p) == PageKey(q) <==> p == q
  {
    PageKeyOf(p);
    PageKeyOf(q);
  }

  /** `Severity`: exactly three values. */
  datatype Severity = High | Medium | Low

  function SeverityValue(s: Severity): string
  {
    match s
    case High => "High"
    case Medium => "Medium"
    case Low => "Low"
  }

  /** Severity labels are looked up by the lowercased value (no space removal). */
  function SeverityKey(s: Severity): (k: string)
    ensures |k| == |SeverityValue(s)| && NoUpperAscii(k)
    ensures ' ' in k <==> ' ' in SeverityValue(s)
  {
    ToLowerKeepsSpaces(SeverityValue(s));
    ToLower(SeverityValue(s))
  }

  lemma SeverityKeys()
    ensures SeverityKey(High) == "high"
    ensures SeverityKey(Medium) == "medium"
    ensures SeverityKey(Low) == "low"
  {
  }

  lemma SeverityKeyInjective(a: Severity, b: Severity)
    ensures SeverityKey(a) == SeverityKey(b) <==> a == b
  {
    SeverityKeys();
  }

  /** `Status`: exactly seven values. */
  datatype Status = New | Notified | Acknowledged | InInvestigation | Resolved | Dismissed | Active

  function StatusValue(s: Status): string
  {
    match s
    case New => "New"
    case Notified => "Notified"
    case Acknowledged => "Acknowledged"
    case InInvestigation => "In Investigation"
    case Resolved => "Resolved"
    case Dismissed => "Dismissed"
    case Active => "Active"
  }

  /** Status labels are looked up by the lowercased value only. */
  function StatusKey(s: Status): (k: string)
    ensures |k| == |StatusValue(s)| && NoUpperAscii(k)
    ensures ' ' in k <==> ' ' in StatusValue(s)
  {
    ToLowerKeepsSpaces(StatusValue(s));
    ToLower(StatusValue(s))
  }

  /** The lowercased key of every status. */
  lemma StatusKeys()
    ensures StatusKey(New) == "new"
    ensures StatusKey(Notified) == "notified"
    ensures StatusKey(Acknowledged) == "acknowledged"
    ensures StatusKey(InInvestigation) == "in investigation"
    ensures StatusKey(Resolved) == "resolved"
    ensures StatusKey(Dismissed) == "dismissed"
    ensures StatusKey(Active) == "active"
  {
    OpenStatusKeys();
    ClosedStatusKeys();
  }

  lemma OpenStatusKeys()
    ensures StatusKey(New) == "new"
    ensures StatusKey(Notified) == "notified"
    ensures StatusKey(Acknowledged) == "acknowledged"
    ensures StatusKey(InInvestigation) == "in investigation"
  {
    NewAndNotifiedKeys();
    AcknowledgedKey();
    InInvestigationKey();
  }

  lemma NewAndNotifiedKeys()
    ensures StatusKey(New) == "new"
    ensures StatusKey(Notified) == "notified"
  {
  }

  lemma AcknowledgedKey() ensures StatusKey(Acknowledged) == "acknowledged" {}

  lemma InInvestigationKey() ensures StatusKey(InInvestigation) == "in investigation" {}

  lemma ClosedStatusKeys()
    ensures StatusKey(Resolved) == "resolved"
    ensures StatusKey(Dismissed) == "dismissed"
    ensures StatusKey(Active) == "active"
  {
  }

  /** "In Investigation" keeps its space under lowercasing, so its key is
      not the table's "investigation". */
  lemma InInvestigationKeyHasSpace()
    ensures ' ' in StatusKey(InInvestigation)
    ensures StatusKey(InInvestigation) != "investigation"
  {
    ToLowerKeepsSpaces(StatusValue(InInvestigation));
    assert StatusValue(InInvestigation)[2] == ' ';
  }
}
