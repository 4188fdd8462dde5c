/** The localisation resolver: two static translation tables, the lookup
    `t(key)` with its fall-back to the key, the text direction derived from
    the language, and the default language. */
module Localization {
  import opened Wrappers

  /** `Language`: 'en' | 'ar'. */
  datatype Language = En | Ar

  /** `Direction`: 'ltr' | 'rtl'. */
  datatype Direction = Ltr | Rtl

  function LanguageCode(l: Language): string
  {
    match l
    case En => "en"
    case Ar => "ar"
  }

  function DirectionCode(d: Direction): string
  {
    match d
    case Ltr => "ltr"
    case Rtl => "rtl"
  }

  /** The provider's initial language. */
  const DefaultLanguage: Language := Ar

  /** `dir`: recomputed from the language on every render, never stored. */
  function Dir(l: Language): (d: Direction)
    ensures d == Rtl <==> l == Ar
  {
    if LanguageCode(l) == "ar" then Rtl else Ltr
  }

  /** The direction is right-to-left exactly for Arabic, in the source's
      string codes. */
  lemma DirCodes(l: Language)
    ensures DirectionCode(Dir(l)) == "rtl" <==> LanguageCode(l) == "ar"
    ensures DirectionCode(Dir(l)) == "ltr" <==> LanguageCode(l) != "ar"
  {
  }

  /** The application starts in Arabic, laid out right to left. */
  lemma DefaultIsArabicRtl()
    ensures LanguageCode(DefaultLanguage) == "ar"
    ensures Dir(DefaultLanguage) == Rtl
  {
  }

  // `translations[l]`, one function per commented block of the source
  // object literal: the entry a block holds for a key, or None.

  /** The "Nav" block: lines 10-21 (en) and 94-105 (ar). */
  function NavTexts(l: Language, key: string): (r: Option<string>)
    ensures Usable(key, r)
  {
    match l
    case En => (
      match key
      case "overview" => Some("Home Dashboard")
      case "liveFeeds" => Some("Live Monitoring")
      case "alerts" => Some("Alerts")
      case "incidents" => Some("Incident History")
      case "ergonomics" => Some("Ergonomics Analysis")
      case "reports" => Some("Analytics")
      case "users" => Some("User Management")
      case "cameras" => Some("Camera Management")
      case "health" => Some("System Health")
      case "monitoring" => Some("Safety Monitoring")
      case "analytics" => Some("Data & Reports")
      case "system" => Some("System Administration")
      case _ => None)
    case Ar => (
      match key
      case "overview" => Some("الرئيسية")
      case "liveFeeds" => Some("المراقبة الحية")
      case "alerts" => Some("التنبيهات")
      case "incidents" => Some("سجل الحوادث")
      case "ergonomics" => Some("تحليل وضعيات العمل")
      case "reports" => Some("التحليلات")
      case "users" => Some("إدارة المستخدمين")
      case "cameras" => Some("إدارة الكاميرات")
      case "health" => Some("صحة النظام")
      case "monitoring" => Some("مراقبة السلامة")
      case "analytics" => Some("البيانات والتقارير")
      case "system" => Some("إدارة النظام")
      case _ => None)
  }

  /** The "Header" block: lines 24-28 (en) and 108-112 (ar). */
  function HeaderTexts(l: Language, key: string): (r: Option<string>)
    ensures Usable(key, r)
  {
    match l
    case En => (
      match key
      case "systemActive" => Some("Edge Server Online")
      case "systemOffline" => Some("Edge Server Offline")
      case "systemOptimal" => Some("System Optimal")
      case "searchPlaceholder" => Some("Search records...")
      case "logout" => Some("Logout")
      case _ => None)
    case Ar => (
      match key
      case "systemActive" => Some("سيرفر الحافة متصل")
      case "systemOffline" => Some("سيرفر الحافة غير متصل")
      case "systemOptimal" => Some("النظام مثالي")
      case "searchPlaceholder" => Some("بحث في السجلات...")
      case "logout" => Some("خروج")
      case _ => None)
  }

  /** The "KPIs" block: lines 31-35 (en) and 115-119 (ar). */
  function KpiTexts(l: Language, key: string): (r: Option<string>)
    ensures Usable(key, r)
  {
    match l
    case En => (
      match key
      case "mtta" => Some("MTTA (Avg. Acknowledge)")
      case "mttr" => Some("MTTR (Avg. Resolve)")
      case "safetyScore" => Some("Compliance Rate")
      case "activeAlerts" => Some("Active Alerts")
      case "lastUpdated" => Some("Last Update")
      case _ => None)
    case Ar => (
      match key
      case "mtta" => Some("متوسط زمن الاستجابة (MTTA)")
      case "mttr" => Some("متوسط زمن الإغلاق (MTTR)")
      case "safetyScore" => Some("نسبة الامتثال")
      case "activeAlerts" => Some("تنبيهات نشطة")
      case "lastUpdated" => Some("آخر تحديث")
      case _ => None)
  }

  /** The "Ergonomics" block: lines 38-43 (en) and 122-127 (ar). */
  function ErgonomicsTexts(l: Language, key: string): (r: Option<string>)
    ensures Usable(key, r)
  {
    match l
    case En => (
      match key
      case "ergonomicExposure" => Some("Postural Risk Exposure")
      case "rulaScore" => Some("Avg RULA Score")
      case "riskyDuration" => Some("Risky Posture Duration")
      case "badPostures" => Some("Bad Postures Detected")
      case "ergoTrends" => Some("Ergonomic Trends")
      case "riskByZone" => Some("Risk Distribution by Zone")
      case _ => None)
    case Ar => (
      match key
      case "ergonomicExposure" => Some("التعرض لمخاطر الوضعيات")
      case "rulaScore" => Some("متوسط مؤشر RULA")
      case "riskyDuration" => Some("مدة الوضعيات الخطرة")
      case "badPostures" => Some("وضعيات خاطئة مكتشفة")
      case "ergoTrends" => Some("اتجاهات الهندسة البشرية")
      case "riskByZone" => Some("توزيع المخاطر حسب المنطقة")
      case _ => None)
  }

  /** The "Health" block: lines 46-51 (en) and 130-135 (ar). */
  function HealthTexts(l: Language, key: string): (r: Option<string>)
    ensures Usable(key, r)
  {
    match l
    case En => (
      match key
      case "edgeNodes" => Some("Edge Computing Nodes")
      case "nodeStatus" => Some("Node Status")
      case "latency" => Some("Latency")
      case "uptime" => Some("Uptime")
      case "storage" => Some("Storage Health")
      case "cpuUsage" => Some("CPU Usage")
      case _ => None)
    case Ar => (
      match key
      case "edgeNodes" => Some("عقد حوسبة الحافة")
      case "nodeStatus" => Some("حالة العقدة")
      case "latency" => Some("زمن الاستجابة")
      case "uptime" => Some("وقت التشغيل")
      case "storage" => Some("صحة التخزين")
      case "cpuUsage" => Some("استهلاك المعالج")
      case _ => None)
  }

  /** The "Dashboard & Others" block: lines 54-64 (en) and 138-148 (ar). */
  function DashboardTexts(l: Language, key: string): (r: Option<string>)
    ensures Usable(key, r)
  {
    match l
    case En => (
      match key
      case "safetyOverview" => Some("Factory Safety Status")
      case "realTimeMonitoring" => Some("Real-time AI surveillance active.")
      case "camerasOnline" => Some("Sensors Online")
      case "incidentTrends" => Some("Safety Trends (Weekly)")
      case "criticalZones" => Some("High Risk Zones")
      case "viewAllZones" => Some("View Map")
      case "liveIncidentFeed" => Some("Recent Activity")
      case "viewAllEvents" => Some("Full History")
      case "highRisk" => Some("DANGER")
      case "processing" => Some("Active")
      case "allZones" => Some("All Areas")
      case _ => None)
    case Ar => (
      match key
      case "safetyOverview" => Some("حالة سلامة المصنع")
      case "realTimeMonitoring" => Some("المراقبة الذكية نشطة حالياً.")
      case "camerasOnline" => Some("المستشعرات المتصلة")
      case "incidentTrends" => Some("اتجاهات السلامة (أسبوعي)")
      case "criticalZones" => Some("المناطق عالية الخطورة")
      case "viewAllZones" => Some("عرض الخريطة")
      case "liveIncidentFeed" => Some("النشاط الأخير")
      case "viewAllEvents" => Some("السجل الكامل")
      case "highRisk" => Some("خطر")
      case "processing" => Some("نشط")
      case "allZones" => Some("كل المناطق")
      case _ => None)
  }

  /** The "Statuses" block: lines 67-73 (en) and 151-157 (ar). */
  function StatusTexts(l: Language, key: string): (r: Option<string>)
    ensures Usable(key, r)
  {
    match l
    case En => (
      match key
      case "new" => Some("New")
      case "acknowledged" => Some("Acknowledged")
      case "resolved" => Some("Resolved")
      case "archived" => Some("Archived")
      case "active" => Some("Active")
      case "logged" => Some("Logged")
      case "investigation" => Some("In Investigation")
      case _ => None)
    case Ar => (
      match key
      case "new" => Some("جديد")
      case "acknowledged" => Some("تم الإقرار")
      case "resolved" => Some("تم الحل")
      case "archived" => Some("مؤرشف")
      case "active" => Some("نشط")
      case "logged" => Some("مسجل")
      case "investigation" => Some("قيد التحقيق")
      case _ => None)
  }

  /** The "General" block: lines 76-90 (en) and 160-174 (ar). */
  function GeneralTexts(l: Language, key: string): (r: Option<string>)
    ensures Usable(key, r)
  {
    match l
    case En => (
      match key
      case "zoneA" => Some("Production A")
      case "zoneB" => Some("Warehouse B")
      case "zoneC" => Some("Loading Dock")
      case "zoneD" => Some("Assembly Line")
      case "admin" => Some("System Admin")
      case "safetyengineer" => Some("Safety Engineer")
      case "dataanalyst" => Some("Data Analyst")
      case "reportIncident" => Some("Report New Incident")
      case "exportCSV" => Some("Export Data")
      case "addUser" => Some("Add User")
      case "addCamera" => Some("Add Stream")
      case "cameraName" => Some("Stream Name")
      case "rtspUrl" => Some("Source URL")
      case "location" => Some("Zone")
      case "saveChanges" => Some("Save Configuration")
      case _ => None)
    case Ar => (
      match key
      case "zoneA" => Some("الإنتاج أ")
      case "zoneB" => Some("المستودع ب")
      case "zoneC" => Some("منصة التحميل")
      case "zoneD" => Some("خط التجميع")
      case "admin" => Some("مسؤول النظام")
      case "safetyengineer" => Some("مهندس سلامة")
      case "dataanalyst" => Some("محلل بيانات")
      case "reportIncident" => Some("إبلاغ عن حادث جديد")
      case "exportCSV" => Some("تصدير البيانات")
      case "addUser" => Some("إضافة مستخدم")
      case "addCamera" => Some("إضافة بث")
      case "cameraName" => Some("اسم البث")
      case "rtspUrl" => Some("رابط المصدر")
      case "location" => Some("المنطقة")
      case "saveChanges" => Some("حفظ الإعدادات")
      case _ => None)
  }

  /** `translations[l][key]` as an own property of the table: a later
      block's entry would take precedence over an earlier one, as in an
      object literal. */
  function Entry(l: Language, key: string): (r: Option<string>)
    ensures Usable(key, r)
  {
    GeneralTexts(l, key)
      .OrElse(StatusTexts(l, key))
      .OrElse(DashboardTexts(l, key))
      .OrElse(HealthTexts(l, key))
      .OrElse(ErgonomicsTexts(l, key))
      .OrElse(KpiTexts(l, key))
      .OrElse(HeaderTexts(l, key))
      .OrElse(NavTexts(l, key))
  }

  predicate HasEntry(l: Language, key: string)
  {
    Entry(l, key).Some?
  }

  /** An entry `t` can show: a non-empty text that differs from its key. */
  predicate Usable(key: string, e: Option<string>)
  {
    e.Some? ==> e.value != "" && e.value != key
  }

  lemma NavTextsAgree(key: string)
    ensures NavTexts(En, key).Some? <==> NavTexts(Ar, key).Some?
  {
  }

  lemma HeaderTextsAgree(key: string)
    ensures HeaderTexts(En, key).Some? <==> HeaderTexts(Ar, key).Some?
  {
  }

  lemma KpiTextsAgree(key: string)
    ensures KpiTexts(En, key).Some? <==> KpiTexts(Ar, key).Some?
  {
  }

  lemma ErgonomicsTextsAgree(key: string)
    ensures ErgonomicsTexts(En, key).Some? <==> ErgonomicsTexts(Ar, key).Some?
  {
  }

  lemma HealthTextsAgree(key: string)
    ensures HealthTexts(En, key).Some? <==> HealthTexts(Ar, key).Some?
  {
  }

  lemma DashboardTextsAgree(key: string)
    ensures DashboardTexts(En, key).Some? <==> DashboardTexts(Ar, key).Some?
  {
  }

  lemma StatusTextsAgree(key: string)
    ensures StatusTexts(En, key).Some? <==> StatusTexts(Ar, key).Some?
  {
  }

  lemma GeneralTextsAgree(key: string)
    ensures GeneralTexts(En, key).Some? <==> GeneralTexts(Ar, key).Some?
  {
  }

  /** Both tables define the same keys. */
  lemma SameKeySet(key: string)
    ensures HasEntry(En, key) <==> HasEntry(Ar, key)
  {
    NavTextsAgree(key);
    HeaderTextsAgree(key);
    KpiTextsAgree(key);
    ErgonomicsTextsAgree(key);
    HealthTextsAgree(key);
    DashboardTextsAgree(key);
    StatusTextsAgree(key);
    GeneralTextsAgree(key);
  }

  /** `t(key)`: `translations[language][key] || key`; a missing or empty
      (falsy) entry yields the key itself. */
  function T(l: Language, key: string): (r: string)
    ensures HasEntry(l, key) ==> r == Entry(l, key).value && r != key
    ensures !HasEntry(l, key) ==> r == key
  {
    match Entry(l, key)
    case Some(text) => if text != "" then text else key
    case None => key
  }

  /** The lookup returns the key itself exactly when the key has no entry. */
  lemma FallbackExactlyOnAbsentKeys(l: Language, key: string)
    ensures T(l, key) == key <==> !HasEntry(l, key)
  {
  }

  /** A key falls back in one language exactly when it falls back in the other. */
  lemma FallbackAgreesAcrossLanguages(key: string)
    ensures T(En, key) == key <==> T(Ar, key) == key
  {
    SameKeySet(key);
  }

  /** The "alerts" label in both languages. */
  lemma AlertsLabel()
    ensures T(En, "alerts") == "Alerts"
    ensures T(Ar, "alerts") == "التنبيهات"
  {
  }

  /** What `t` shows for any key, in terms of the English table alone:
      the key itself exactly when English lacks it, otherwise the entry of
      the current language. */
  lemma Lookup(l: Language, key: string)
    ensures T(l, key) == key <==> !HasEntry(En, key)
    ensures T(l, key) != key ==> T(l, key) == Entry(l, key).value
  {
    SameKeySet(key);
  }

  /** A key without an English entry falls back in both languages. */
  lemma FallbackWithoutEnglishEntry(l: Language, key: string)
    requires !HasEntry(En, key)
    ensures T(l, key) == key
  {
    SameKeySet(key);
  }

  lemma NoDashboardEntry() ensures !HasEntry(En, "dashboard") {}

  lemma NoDismissedEntry() ensures !HasEntry(En, "dismissed") {}

  lemma NoHighEntry() ensures !HasEntry(En, "high") {}

  /** Keys that appear in neither table resolve to themselves. */
  lemma AbsentKeysFallBack(l: Language)
    ensures T(l, "dashboard") == "dashboard"
    ensures T(l, "dismissed") == "dismissed"
    ensures T(l, "high") == "high"
  {
    NoDashboardEntry();
    FallbackWithoutEnglishEntry(l, "dashboard");
    NoDismissedEntry();
    FallbackWithoutEnglishEntry(l, "dismissed");
    NoHighEntry();
    FallbackWithoutEnglishEntry(l, "high");
  }

  /** The three role keys have entries in both tables. */
  lemma RoleLabelKeysPresent(l: Language)
    ensures HasEntry(l, "admin")
    ensures HasEntry(l, "safetyengineer")
    ensures HasEntry(l, "dataanalyst")
  {
  }
}
