/** The threat analyzer: pattern detectors over the fields of one attempt, the behavioural
    rule over the failed attempts of the recent past, and the composer that scores every
    finding, records one alert per finding and notifies for the high ones. The history
    the behavioural rule reads is the activity table itself (the attempt under analysis has
    already been logged by the caller); a read error is `None`. Database times are seconds,
    the dispatcher's clock milliseconds. */
module ThreatAnalyzer {
  import opened Common
  import opened Text
  import opened Patterns
  import Database
  import AlertService

  datatype ThreatKind =
    | CredentialStuffing | PasswordSpraying | SqlInjection | XssAttempt | DirectoryTraversal
    | AdminTargeting | BotScanning | SocialEngineering | BruteForce

  /** The type code stored as `reason_code` and used as the key of `threatScores`. */
  function Code(k: ThreatKind): string {
    match k
    case CredentialStuffing => "credential_stuffing"
    case PasswordSpraying => "password_spraying"
    case SqlInjection => "sql_injection"
    case XssAttempt => "xss_attempt"
    case DirectoryTraversal => "directory_traversal"
    case AdminTargeting => "admin_targeting"
    case BotScanning => "bot_scanning"
    case SocialEngineering => "social_engineering"
    case BruteForce => "brute_force"
  }

  /** The kind a type code names, if any. */
  function KindOfCode(code: string): (r: Option<ThreatKind>)
    ensures r.Some? ==> Code(r.value) == code
    ensures r.None? ==> forall k :: Code(k) != code
  {
    if code == "credential_stuffing" then Some(CredentialStuffing)
    else if code == "password_spraying" then Some(PasswordSpraying)
    else if code == "sql_injection" then Some(SqlInjection)
    else if code == "xss_attempt" then Some(XssAttempt)
    else if code == "directory_traversal" then Some(DirectoryTraversal)
    else if code == "admin_targeting" then Some(AdminTargeting)
    else if code == "bot_scanning" then Some(BotScanning)
    else if code == "social_engineering" then Some(SocialEngineering)
    else if code == "brute_force" then Some(BruteForce)
    else None
  }

  /** Distinct kinds have distinct codes, so every code names exactly one kind. */
  lemma CodeRoundTrip(k: ThreatKind)
    ensures KindOfCode(Code(k)) == Some(k)
  {
  }

  /** `threatScores`. */
  function Score(k: ThreatKind): (s: nat)
    ensures 6 <= s <= 9
    ensures s == 9 <==> k == SqlInjection || k == AdminTargeting
  {
    match k
    case CredentialStuffing => 8
    case PasswordSpraying => 7
    case SqlInjection => 9
    case XssAttempt => 8
    case DirectoryTraversal => 7
    case AdminTargeting => 9
    case BotScanning => 6
    case SocialEngineering => 8
    case BruteForce => 8
  }

  /** The alert title of each kind (the `titles` table of `getThreatTitle`). */
  function TitleOf(k: ThreatKind): string {
    match k
    case SqlInjection => "SQL Injection Attempt Detected"
    case XssAttempt => "Cross-Site Scripting Attempt"
    case DirectoryTraversal => "Directory Traversal Attempt"
    case AdminTargeting => "Administrative Account Targeted"
    case CredentialStuffing => "Credential Stuffing Attack"
    case PasswordSpraying => "Password Spraying Attack"
    case BruteForce => "Brute Force Attack Detected"
    case BotScanning => "Automated Bot Scanning"
    case SocialEngineering => "Social Engineering Attempt"
  }

  const FallbackTitle: string := "Suspicious Activity Detected"

  /** `getThreatTitle`: the title of the kind the code names, the fallback otherwise. */
  function GetThreatTitle(code: string): (t: string)
    ensures forall k :: code == Code(k) ==> t == TitleOf(k)
    ensures (forall k :: code != Code(k)) ==> t == FallbackTitle
  {
    match KindOfCode(code)
    case Some(k) =>
      assert forall j | code == Code(j) :: j == k by {
        forall j | code == Code(j) ensures j == k { CodeRoundTrip(j); }
      }
      TitleOf(k)
    case None => FallbackTitle
  }

  /** Every known kind has its own title, and none of them is the fallback. */
  lemma TitlesAreDistinct(j: ThreatKind, k: ThreatKind)
    ensures TitleOf(j) != FallbackTitle
    ensures TitleOf(j) == TitleOf(k) ==> j == k
  {
  }

  // ---------------------------------------------------------------- pattern detectors

  /** `[email, password, payload].filter(Boolean)`. */
  function Inputs(email: Option<string>, password: Option<string>, payload: Option<string>): (r: seq<string>)
    ensures |r| <= 3
    ensures forall s :: s in r <==>
      (Present(email) && s == email.value) || (Present(password) && s == password.value)
      || (Present(payload) && s == payload.value)
  {
    (if Present(email) then [email.value] else [])
    + (if Present(password) then [password.value] else [])
    + (if Present(payload) then [payload.value] else [])
  }

  /** Some present field matches some expression of the table. */
  predicate AnyInputMatches(table: seq<Pattern>, email: Option<string>, password: Option<string>, payload: Option<string>) {
    exists s | s in Inputs(email, password, payload) :: MatchesAny(table, s)
  }

  predicate DetectSQLInjection(email: Option<string>, password: Option<string>, payload: Option<string>) {
    AnyInputMatches(SqlInjectionPatterns, email, password, payload)
  }

  predicate DetectXSSAttempt(email: Option<string>, password: Option<string>, payload: Option<string>) {
    AnyInputMatches(XssPatterns, email, password, payload)
  }

  predicate DetectDirectoryTraversal(email: Option<string>, password: Option<string>, payload: Option<string>) {
    AnyInputMatches(TraversalPatterns, email, password, payload)
  }

  /** `detectAdminTargeting`: only the email, and never when it is absent or empty. */
  predicate DetectAdminTargeting(email: Option<string>) {
    Present(email) && MatchesAny(AdminPatterns, email.value)
  }

  /** A field-based detector fires iff one of the three fields is present and matches. */
  lemma DetectorReadsPresentFields(table: seq<Pattern>, email: Option<string>, password: Option<string>, payload: Option<string>)
    ensures AnyInputMatches(table, email, password, payload) <==>
      || (Present(email) && MatchesAny(table, email.value))
      || (Present(password) && MatchesAny(table, password.value))
      || (Present(payload) && MatchesAny(table, payload.value))
  {
    var ins := Inputs(email, password, payload);
    if Present(email) && MatchesAny(table, email.value) {
      assert email.value in ins;
    }
    if Present(password) && MatchesAny(table, password.value) {
      assert password.value in ins;
    }
    if Present(payload) && MatchesAny(table, payload.value) {
      assert payload.value in ins;
    }
  }

  /** An attempt without email, password and payload never yields a pattern threat. */
  lemma NoFieldsNoPatternThreat(email: Option<string>, password: Option<string>, payload: Option<string>)
    requires !Present(email) && !Present(password) && !Present(payload)
    ensures !DetectSQLInjection(email, password, payload)
    ensures !DetectXSSAttempt(email, password, payload)
    ensures !DetectDirectoryTraversal(email, password, payload)
    ensures !DetectAdminTargeting(email)
  {
    assert Inputs(email, password, payload) == [];
  }

  /** A quote, a semicolon or `--` in any field is flagged as SQL injection. */
  lemma MetaCharacterInPasswordIsSql(email: Option<string>, password: string, payload: Option<string>)
    requires Contains(password, "'") || Contains(password, ";") || Contains(password, "--")
    ensures DetectSQLInjection(email, Some(password), payload)
  {
    MetaCharacterIsSqlInjection(password);
    if Contains(password, "'") {
      ContainedIsShorter(password, "'");
    } else if Contains(password, ";") {
      ContainedIsShorter(password, ";");
    } else {
      ContainedIsShorter(password, "--");
    }
    DetectorReadsPresentFields(SqlInjectionPatterns, email, Some(password), payload);
  }

  /** Admin targeting is a substring test on the email: "Administration@x" matches. */
  lemma AdminSubstringInEmail(before: string, word: string, after: string)
    requires Lower(word) == "admin"
    ensures DetectAdminTargeting(Some(before + word + after))
  {
    AdminAnywhereMatches(before, word, after);
  }

  // ---------------------------------------------------------------- behavioural rule

  /** The column a window query filters on. */
  datatype Column = IpAddress | EmailColumn

  function KeyOf(row: Database.ActivityRow, column: Column): Option<string> {
    match column
    case IpAddress => row.ip
    case EmailColumn => row.email
  }

  /** `column = ? AND success = FALSE AND created_at > since`; `column = ?` holds for no
      row when either side is NULL. */
  predicate InWindow(row: Database.ActivityRow, column: Column, value: Option<string>, since: int) {
    KeyOf(row, column).Some? && value.Some? && KeyOf(row, column).value == value.value
    && !row.success && row.createdAt > since
  }

  /** The rows a window query returns, in table order (the `ORDER BY` changes neither the
      count nor the set of emails, which is all the rule reads). */
  function Window(rows: seq<Database.ActivityRow>, column: Column, value: Option<string>, since: int): (r: seq<Database.ActivityRow>)
    ensures |r| <= |rows|
    ensures forall i | 0 <= i < |r| :: r[i] in rows && InWindow(r[i], column, value, since)
    ensures forall i | 0 <= i < |rows| :: InWindow(rows[i], column, value, since) ==> rows[i] in r
  {
    if |rows| == 0 then []
    else
      var last := rows[|rows| - 1];
      Window(rows[..|rows| - 1], column, value, since) + (if InWindow(last, column, value, since) then [last] else [])
  }

  /** A row appended to the table is counted iff it is in the window, and the earlier
      rows are counted as before. */
  lemma WindowOfAppended(rows: seq<Database.ActivityRow>, row: Database.ActivityRow, column: Column, value: Option<string>, since: int)
    ensures Window(rows + [row], column, value, since)
      == Window(rows, column, value, since) + (if InWindow(row, column, value, since) then [row] else [])
  {
    assert (rows + [row])[..|rows|] == rows;
  }

  /** The window of a concatenation is the concatenation of the windows; with
      `WindowOfOne`, the window is the qualifying rows, each once, in table order. */
  lemma {:induction false} WindowOfConcat(a: seq<Database.ActivityRow>, b: seq<Database.ActivityRow>, column: Column,
                                          value: Option<string>, since: int)
    ensures Window(a + b, column, value, since) == Window(a, column, value, since) + Window(b, column, value, since)
    decreases |b|
  {
    if |b| > 0 {
      var b' := b[..|b| - 1];
      var last := b[|b| - 1];
      var ab' := a + b';
      assert b == b' + [last];
      assert a + b == ab' + [last];
      WindowOfAppended(ab', last, column, value, since);
      WindowOfAppended(b', last, column, value, since);
      WindowOfConcat(a, b', column, value, since);
    } else {
      assert a + b == a;
    }
  }

  /** A single row forms its own window exactly when it qualifies. */
  lemma WindowOfOne(x: Database.ActivityRow, column: Column, value: Option<string>, since: int)
    ensures Window([x], column, value, since) == if InWindow(x, column, value, since) then [x] else []
  {
    assert [x][..0] == [];
  }

  const IpWindowSeconds: int := 15 * 60
  const EmailWindowSeconds: int := 30 * 60

  function FailedFromIp(rows: seq<Database.ActivityRow>, ip: Option<string>, nowSec: int): seq<Database.ActivityRow> {
    Window(rows, IpAddress, ip, nowSec - IpWindowSeconds)
  }

  function FailedOnEmail(rows: seq<Database.ActivityRow>, email: Option<string>, nowSec: int): seq<Database.ActivityRow> {
    Window(rows, EmailColumn, email, nowSec - EmailWindowSeconds)
  }

  /** `new Set(recentAttempts.map(attempt => attempt.email))`; NULL is one more value. */
  function EmailsOf(rows: seq<Database.ActivityRow>): (r: set<Option<string>>)
    ensures forall e :: e in r <==> exists i | 0 <= i < |rows| :: rows[i].email == e
  {
    set i | 0 <= i < |rows| :: rows[i].email
  }

  /** The kinds the behavioural rule reports. */
  predicate Behavioural(k: ThreatKind) {
    k == CredentialStuffing || k == PasswordSpraying || k == BruteForce
  }

  /** What `checkBruteForce` reports; its severity is always high. */
  datatype Detection = Detection(kind: ThreatKind, reason: string)

  predicate Stuffing(ipRows: seq<Database.ActivityRow>) {
    |ipRows| >= 5 && |EmailsOf(ipRows)| >= 3
  }

  /** `checkBruteForce` over the table (`None` when reading it failed). */
  function CheckBruteForce(history: Option<seq<Database.ActivityRow>>, ip: Option<string>, email: Option<string>, nowSec: int): (r: Option<Detection>)
    ensures history.None? ==> r.None?
    ensures r.Some? ==> Behavioural(r.value.kind)
    ensures history.Some? ==>
      var ipRows := FailedFromIp(history.value, ip, nowSec);
      var emailRows := FailedOnEmail(history.value, email, nowSec);
      && (r.Some? && r.value.kind == CredentialStuffing <==> Stuffing(ipRows))
      && (r.Some? && r.value.kind == PasswordSpraying <==> !Stuffing(ipRows) && |emailRows| >= 5)
      && (r.Some? && r.value.kind == BruteForce <==> !Stuffing(ipRows) && |emailRows| < 5 && |ipRows| >= 10)
      && (r.None? <==> !Stuffing(ipRows) && |emailRows| < 5 && |ipRows| < 10)
  {
    match history
    case None => None
    case Some(rows) =>
      var ipRows := FailedFromIp(rows, ip, nowSec);
      var emailRows := FailedOnEmail(rows, email, nowSec);
      if Stuffing(ipRows) then
        Some(Detection(CredentialStuffing,
          NatStr(|ipRows|) + " failed attempts with " + NatStr(|EmailsOf(ipRows)|)
          + " different emails from IP " + Show(ip)))
      else if |emailRows| >= 5 then
        Some(Detection(PasswordSpraying, NatStr(|emailRows|) + " failed attempts on email " + Show(email)))
      else if |ipRows| >= 10 then
        Some(Detection(BruteForce, NatStr(|ipRows|) + " rapid failed attempts from IP " + Show(ip)))
      else None
  }

  /** Ten or more failures from one IP over three or more emails are reported as
      credential stuffing, never as brute force: at most one behavioural finding. */
  lemma ManyEmailsIsStuffingNotBruteForce(rows: seq<Database.ActivityRow>, ip: Option<string>, email: Option<string>, nowSec: int)
    requires |FailedFromIp(rows, ip, nowSec)| >= 10 && |EmailsOf(FailedFromIp(rows, ip, nowSec))| >= 3
    ensures CheckBruteForce(Some(rows), ip, email, nowSec) ==
      Some(Detection(CredentialStuffing,
        NatStr(|FailedFromIp(rows, ip, nowSec)|) + " failed attempts with "
        + NatStr(|EmailsOf(FailedFromIp(rows, ip, nowSec))|) + " different emails from IP " + Show(ip)))
  {
  }

  /** The attempt under analysis was logged just before (failed, at the current second), so
      it counts toward both of its own windows. */
  lemma LoggedAttemptCountsTowardItself(rows: seq<Database.ActivityRow>, row: Database.ActivityRow, nowSec: int)
    requires !row.success && row.createdAt == nowSec
    ensures row.ip.Some? ==>
      FailedFromIp(rows + [row], row.ip, nowSec) == FailedFromIp(rows, row.ip, nowSec) + [row]
    ensures row.email.Some? ==>
      FailedOnEmail(rows + [row], row.email, nowSec) == FailedOnEmail(rows, row.email, nowSec) + [row]
  {
    WindowOfAppended(rows, row, IpAddress, row.ip, nowSec - IpWindowSeconds);
    WindowOfAppended(rows, row, EmailColumn, row.email, nowSec - EmailWindowSeconds);
  }

  /** Hence after four recent failures on an email, logging a fifth failure on it makes
      the rule report password spraying, unless the IP rule for credential stuffing fires
      first. */
  lemma FifthFailureOnEmailIsSpraying(rows: seq<Database.ActivityRow>, row: Database.ActivityRow, nowSec: int)
    requires !row.success && row.createdAt == nowSec && row.email.Some?
    requires |FailedOnEmail(rows, row.email, nowSec)| == 4
    requires !Stuffing(FailedFromIp(rows + [row], row.ip, nowSec))
    ensures var r := CheckBruteForce(Some(rows + [row]), row.ip, row.email, nowSec);
      r.Some? && r.value.kind == PasswordSpraying
  {
    LoggedAttemptCountsTowardItself(rows, row, nowSec);
  }

  // ---------------------------------------------------------------- bot rule

  /** `detectBotBehavior`: the reason of the first rule that fires, `None` when the agent
      looks like a browser. */
  function DetectBotBehavior(userAgent: Option<string>): (r: Option<string>)
    ensures !Present(userAgent) ==> r == Some("Missing User-Agent header")
    ensures Present(userAgent) && MatchesAny(BotPatterns, userAgent.value) ==>
      r == Some("Bot-like User-Agent detected")
    ensures (Present(userAgent) && !MatchesAny(BotPatterns, userAgent.value)
             && MatchesAny(SuspiciousAgents, userAgent.value)) ==> r == Some("Suspicious User-Agent pattern")
    ensures (Present(userAgent) && !MatchesAny(BotPatterns, userAgent.value)
             && !MatchesAny(SuspiciousAgents, userAgent.value)
             && (|userAgent.value| < 20 || |userAgent.value| > 500)) ==> r == Some("Abnormal User-Agent length")
    ensures r.None? <==>
      Present(userAgent) && !MatchesAny(BotPatterns, userAgent.value)
      && !MatchesAny(SuspiciousAgents, userAgent.value) && 20 <= |userAgent.value| <= 500
  {
    if !Present(userAgent) then Some("Missing User-Agent header")
    else
      var ua := userAgent.value;
      if MatchesAny(BotPatterns, ua) then Some("Bot-like User-Agent detected")
      else if MatchesAny(SuspiciousAgents, ua) then Some("Suspicious User-Agent pattern")
      else if |ua| < 20 || |ua| > 500 then Some("Abnormal User-Agent length")
      else None
  }

  /** "Mozilla/4.0" anywhere in the agent marks it as a bot, case-sensitively. */
  lemma OldMozillaIsBot(before: string, after: string)
    ensures DetectBotBehavior(Some(before + "Mozilla/4.0" + after)).Some?
  {
    var ua := before + "Mozilla/4.0" + after;
    ContainsInfix(before, "Mozilla/4.0", after);
    assert Matches(SuspiciousAgents[0], ua);
  }

  // ---------------------------------------------------------------- composition

  /** One entry of the list `analyzeActivity` returns. */
  datatype Threat = Threat(kind: ThreatKind, severity: Severity, reason: string, score: nat)

  function Scored(k: ThreatKind, severity: Severity, reason: string): (t: Threat)
    ensures t.kind == k && t.score == Score(k) && t.severity == severity && t.reason == reason
  {
    Threat(k, severity, reason, Score(k))
  }

  /** The position of each kind in the list (behavioural kinds share one slot). */
  function Rank(k: ThreatKind): nat {
    match k
    case SqlInjection => 0
    case XssAttempt => 1
    case DirectoryTraversal => 2
    case AdminTargeting => 3
    case CredentialStuffing => 4
    case PasswordSpraying => 4
    case BruteForce => 4
    case BotScanning => 5
    case SocialEngineering => 6
  }

  function When(c: bool, t: Threat): seq<Threat> {
    if c then [t] else []
  }

  function BehaviouralThreat(check: Option<Detection>): seq<Threat> {
    match check
    case Some(det) => [Scored(det.kind, High, det.reason)]
    case None => []
  }

  function BotThreat(check: Option<string>): seq<Threat> {
    match check
    case Some(reason) => [Scored(BotScanning, Medium, reason)]
    case None => []
  }

  /** What the six checks of `analyzeActivity` found for one attempt. */
  datatype Findings = Findings(
    sql: bool, xss: bool, traversal: bool, admin: bool,
    behaviour: Option<Detection>, bot: Option<string>)

  /** The checks of `analyzeActivity`, each on the fields it reads. */
  function Detect(d: ActivityData, history: Option<seq<Database.ActivityRow>>, nowSec: int): Findings {
    Findings(
      DetectSQLInjection(d.email, d.password, d.payload),
      DetectXSSAttempt(d.email, d.password, d.payload),
      DetectDirectoryTraversal(d.email, d.password, d.payload),
      DetectAdminTargeting(d.email),
      CheckBruteForce(history, d.ip, d.email, nowSec),
      DetectBotBehavior(d.userAgent))
  }

  /** The threats pushed for the findings, in the order of the pushes. */
  function Compose(f: Findings): seq<Threat> {
    InOrder(
      When(f.sql, Scored(SqlInjection, High, "SQL injection patterns detected in input")),
      When(f.xss, Scored(XssAttempt, High, "Cross-site scripting patterns detected")),
      When(f.traversal, Scored(DirectoryTraversal, Medium, "Directory traversal patterns detected")),
      When(f.admin, Scored(AdminTargeting, High, "Attempt to access administrative account")),
      BehaviouralThreat(f.behaviour),
      BotThreat(f.bot))
  }

  /** The pushes of the six checks, one after the other. */
  function InOrder(p0: seq<Threat>, p1: seq<Threat>, p2: seq<Threat>, p3: seq<Threat>, p4: seq<Threat>, p5: seq<Threat>): seq<Threat> {
    p0 + p1 + p2 + p3 + p4 + p5
  }

  /** The threats `analyzeActivity` finds. */
  function Threats(d: ActivityData, history: Option<seq<Database.ActivityRow>>, nowSec: int): seq<Threat> {
    Compose(Detect(d, history, nowSec))
  }

  /** The severity each kind is reported with. */
  function SeverityOf(k: ThreatKind): Severity {
    if k == DirectoryTraversal || k == BotScanning then Medium else High
  }

  /** Every threat is scored from the table and has its kind's severity, every rank is
      below `bound`, and the kinds come in the fixed order, each at most once. */
  predicate WellOrdered(ts: seq<Threat>, bound: nat) {
    && (forall i | 0 <= i < |ts| :: ts[i].score == Score(ts[i].kind) && ts[i].severity == SeverityOf(ts[i].kind))
    && (forall i | 0 <= i < |ts| :: Rank(ts[i].kind) < bound)
    && (forall i, j | 0 <= i < j < |ts| :: Rank(ts[i].kind) < Rank(ts[j].kind))
  }

  lemma AppendWellOrdered(ts: seq<Threat>, bound: nat, more: seq<Threat>, bound': nat)
    requires WellOrdered(ts, bound) && WellOrdered(more, bound') && bound <= bound'
    requires forall i | 0 <= i < |more| :: bound <= Rank(more[i].kind)
    ensures WellOrdered(ts + more, bound')
  {
    var all := ts + more;
    forall i, j | 0 <= i < j < |all|
      ensures Rank(all[i].kind) < Rank(all[j].kind)
    {
      if j < |ts| {
      } else if i < |ts| {
        assert all[j] == more[j - |ts|];
      } else {
        assert all[i] == more[i - |ts|] && all[j] == more[j - |ts|];
      }
    }
    forall i | 0 <= i < |all|
      ensures Rank(all[i].kind) < bound'
    {
      if i >= |ts| {
        assert all[i] == more[i - |ts|];
      }
    }
  }

  /** A piece of the list: at most one threat, scored from the table, with its kind's
      severity and a rank in `lo..hi - 1`. */
  predicate Slot(ts: seq<Threat>, lo: nat, hi: nat) {
    && |ts| <= 1
    && (|ts| == 1 ==>
          && ts[0].score == Score(ts[0].kind) && ts[0].severity == SeverityOf(ts[0].kind)
          && lo <= Rank(ts[0].kind) < hi)
  }

  lemma PieceWellOrdered(ts: seq<Threat>, lo: nat, hi: nat)
    requires Slot(ts, lo, hi)
    ensures WellOrdered(ts, hi)
    ensures forall i | 0 <= i < |ts| :: lo <= Rank(ts[i].kind)
  {
  }

  /** `analyzeActivity` returns at most six threats, each scored from `threatScores` and
      with its kind's severity, in the order sql, xss, traversal, admin, behavioural, bot;
      social engineering is never reported. */
  lemma ComposeIsOrdered(f: Findings)
    requires f.behaviour.Some? ==> Behavioural(f.behaviour.value.kind)
    ensures |Compose(f)| <= 6
    ensures WellOrdered(Compose(f), 6)
  {
    var sql := When(f.sql, Scored(SqlInjection, High, "SQL injection patterns detected in input"));
    var xss := When(f.xss, Scored(XssAttempt, High, "Cross-site scripting patterns detected"));
    var traversal := When(f.traversal, Scored(DirectoryTraversal, Medium, "Directory traversal patterns detected"));
    var admin := When(f.admin, Scored(AdminTargeting, High, "Attempt to access administrative account"));
    var behaviour := BehaviouralThreat(f.behaviour);
    var bot := BotThreat(f.bot);
    assert Compose(f) == InOrder(sql, xss, traversal, admin, behaviour, bot);
    assert Slot(sql, 0, 1) && Slot(xss, 1, 2) && Slot(traversal, 2, 3) && Slot(admin, 3, 4);
    assert Slot(behaviour, 4, 5) && Slot(bot, 5, 6);
    SixPiecesWellOrdered(sql, xss, traversal, admin, behaviour, bot);
  }

  lemma SixPiecesWellOrdered(p0: seq<Threat>, p1: seq<Threat>, p2: seq<Threat>, p3: seq<Threat>, p4: seq<Threat>, p5: seq<Threat>)
    requires Slot(p0, 0, 1) && Slot(p1, 1, 2) && Slot(p2, 2, 3)
    requires Slot(p3, 3, 4) && Slot(p4, 4, 5) && Slot(p5, 5, 6)
    ensures |InOrder(p0, p1, p2, p3, p4, p5)| <= 6
    ensures WellOrdered(InOrder(p0, p1, p2, p3, p4, p5), 6)
  {
    PieceWellOrdered(p0, 0, 1);
    PieceWellOrdered(p1, 1, 2);
    PieceWellOrdered(p2, 2, 3);
    PieceWellOrdered(p3, 3, 4);
    PieceWellOrdered(p4, 4, 5);
    PieceWellOrdered(p5, 5, 6);
    AppendWellOrdered(p0, 1, p1, 2);
    AppendWellOrdered(p0 + p1, 2, p2, 3);
    AppendWellOrdered(p0 + p1 + p2, 3, p3, 4);
    AppendWellOrdered(p0 + p1 + p2 + p3, 4, p4, 5);
    AppendWellOrdered(p0 + p1 + p2 + p3 + p4, 5, p5, 6);
  }

  predicate HasKind(ts: seq<Threat>, k: ThreatKind) {
    exists i | 0 <= i < |ts| :: ts[i].kind == k
  }

  /** Each kind is in the list exactly when its check fired. */
  lemma ComposeReportsEachFinding(f: Findings)
    requires f.behaviour.Some? ==> Behavioural(f.behaviour.value.kind)
    ensures var ts := Compose(f);
      && (HasKind(ts, SqlInjection) <==> f.sql)
      && (HasKind(ts, XssAttempt) <==> f.xss)
      && (HasKind(ts, DirectoryTraversal) <==> f.traversal)
      && (HasKind(ts, AdminTargeting) <==> f.admin)
      && (forall k | Behavioural(k) :: HasKind(ts, k) <==> f.behaviour.Some? && f.behaviour.value.kind == k)
      && (HasKind(ts, BotScanning) <==> f.bot.Some?)
  {
    var sql := When(f.sql, Scored(SqlInjection, High, "SQL injection patterns detected in input"));
    var xss := When(f.xss, Scored(XssAttempt, High, "Cross-site scripting patterns detected"));
    var traversal := When(f.traversal, Scored(DirectoryTraversal, Medium, "Directory traversal patterns detected"));
    var admin := When(f.admin, Scored(AdminTargeting, High, "Attempt to access administrative account"));
    var behaviour := BehaviouralThreat(f.behaviour);
    var bot := BotThreat(f.bot);
    assert Compose(f) == InOrder(sql, xss, traversal, admin, behaviour, bot);
    forall k: ThreatKind
      ensures HasKind(Compose(f), k) <==>
        || (f.sql && k == SqlInjection) || (f.xss && k == XssAttempt)
        || (f.traversal && k == DirectoryTraversal) || (f.admin && k == AdminTargeting)
        || (f.behaviour.Some? && f.behaviour.value.kind == k) || (f.bot.Some? && k == BotScanning)
    {
      HasKindInOrder(sql, xss, traversal, admin, behaviour, bot, k);
      HasKindPiece(sql, k);
      HasKindPiece(xss, k);
      HasKindPiece(traversal, k);
      HasKindPiece(admin, k);
      HasKindPiece(behaviour, k);
      HasKindPiece(bot, k);
    }
  }

  /** A kind occurs in the six pieces together when it occurs in one of them. */
  lemma HasKindInOrder(p0: seq<Threat>, p1: seq<Threat>, p2: seq<Threat>, p3: seq<Threat>, p4: seq<Threat>,
                       p5: seq<Threat>, k: ThreatKind)
    ensures HasKind(InOrder(p0, p1, p2, p3, p4, p5), k) <==>
      || HasKind(p0, k) || HasKind(p1, k) || HasKind(p2, k)
      || HasKind(p3, k) || HasKind(p4, k) || HasKind(p5, k)
  {
    HasKindConcat(p0, p1, k);
    HasKindConcat(p0 + p1, p2, k);
    HasKindConcat(p0 + p1 + p2, p3, k);
    HasKindConcat(p0 + p1 + p2 + p3, p4, k);
    HasKindConcat(p0 + p1 + p2 + p3 + p4, p5, k);
  }

  lemma HasKindPiece(ts: seq<Threat>, k: ThreatKind)
    requires |ts| <= 1
    ensures HasKind(ts, k) <==> |ts| == 1 && ts[0].kind == k
  {
    if |ts| == 1 && ts[0].kind == k {
      assert ts[0].kind == k;
    }
  }

  lemma HasKindConcat(a: seq<Threat>, b: seq<Threat>, k: ThreatKind)
    ensures HasKind(a + b, k) <==> HasKind(a, k) || HasKind(b, k)
  {
    if HasKind(a, k) {
      var i :| 0 <= i < |a| && a[i].kind == k;
      assert (a + b)[i].kind == k;
    }
    if HasKind(a + b, k) {
      var i :| 0 <= i < |a + b| && (a + b)[i].kind == k;
      if i >= |a| {
        assert b[i - |a|].kind == k;
      }
    }
    if HasKind(b, k) {
      var i :| 0 <= i < |b| && b[i].kind == k;
      assert (a + b)[|a| + i].kind == k;
    }
  }

  /** `processThreat`'s `alertData`. */
  function AlertFor(t: Threat, d: ActivityData): (a: AlertData)
    ensures a.title == TitleOf(t.kind) && a.title != FallbackTitle
    ensures a.reasonCode == Code(t.kind) && a.description == t.reason && a.severity == t.severity
    ensures a.ip == d.ip && a.email == d.email
  {
    TitlesAreDistinct(t.kind, t.kind);
    AlertData(GetThreatTitle(Code(t.kind)), t.reason, t.severity, Code(t.kind), d.ip, d.email)
  }

  /** The alert rows the threats add, one per threat and in the same order. */
  function AlertRows(ts: seq<Threat>, d: ActivityData, nowSec: int): (rows: seq<Database.AlertRow>)
    ensures |rows| == |ts|
    ensures forall i | 0 <= i < |ts| :: rows[i] == Database.AlertRowOf(AlertFor(ts[i], d), nowSec)
  {
    if ts == [] then []
    else
      var init := ts[..|ts| - 1];
      assert forall i | 0 <= i < |init| :: init[i] == ts[i];
      AlertRows(init, d, nowSec) + [Database.AlertRowOf(AlertFor(ts[|ts| - 1], d), nowSec)]
  }

  lemma AlertRowsGrow(start: seq<Database.AlertRow>, rows: seq<Database.AlertRow>, ts: seq<Threat>, i: nat,
                      d: ActivityData, nowSec: int)
    requires i < |ts| && rows == start + AlertRows(ts[..i], d, nowSec)
    ensures rows + [Database.AlertRowOf(AlertFor(ts[i], d), nowSec)] == start + AlertRows(ts[..i + 1], d, nowSec)
  {
    assert ts[..i + 1][..i] == ts[..i];
  }

  /** The notification step of `processThreat`: only high-severity alerts are dispatched. */
  function NotifyOne(config: AlertService.AlertConfig, ready: bool, st: AlertService.Dispatcher, a: AlertData,
                     nowMs: int, stamp: string, deliver: (nat, AlertService.Channel, string) -> AlertService.SendResult): AlertService.Dispatcher
  {
    if a.severity == High then AlertService.Dispatch(config, ready, st, a, nowMs, stamp, deliver).1 else st
  }

  /** The dispatcher after notifying the alerts in order. */
  function Notify(config: AlertService.AlertConfig, ready: bool, st: AlertService.Dispatcher, alerts: seq<AlertData>,
                  nowMs: int, stamp: string, deliver: (nat, AlertService.Channel, string) -> AlertService.SendResult): AlertService.Dispatcher
    decreases |alerts|
  {
    if |alerts| == 0 then st
    else Notify(config, ready, NotifyOne(config, ready, st, alerts[0], nowMs, stamp, deliver), alerts[1..], nowMs, stamp, deliver)
  }

  /** Notifying the rest of a list after its first alert is notifying the list. */
  lemma NotifyStep(config: AlertService.AlertConfig, ready: bool, st: AlertService.Dispatcher, alerts: seq<AlertData>, i: nat,
                   nowMs: int, stamp: string, deliver: (nat, AlertService.Channel, string) -> AlertService.SendResult)
    requires i < |alerts|
    ensures Notify(config, ready, NotifyOne(config, ready, st, alerts[i], nowMs, stamp, deliver), alerts[i + 1..], nowMs, stamp, deliver)
      == Notify(config, ready, st, alerts[i..], nowMs, stamp, deliver)
  {
    assert alerts[i..][0] == alerts[i];
    assert alerts[i..][1..] == alerts[i + 1..];
  }

  function FirstHigh(alerts: seq<AlertData>): (r: Option<AlertData>)
    ensures r.Some? ==> r.value.severity == High
    ensures r.Some? ==>
      exists i | 0 <= i < |alerts| :: alerts[i] == r.value && forall j | 0 <= j < i :: alerts[j].severity != High
    ensures r.None? ==> forall i | 0 <= i < |alerts| :: alerts[i].severity != High
  {
    if |alerts| == 0 then None
    else if alerts[0].severity == High then Some(alerts[0])
    else
      var r := FirstHigh(alerts[1..]);
      assert r.Some? ==>
        exists i | 0 <= i < |alerts| :: alerts[i] == r.value && forall j | 0 <= j < i :: alerts[j].severity != High
      by {
        if r.Some? {
          var i :| 0 <= i < |alerts[1..]| && alerts[1..][i] == r.value && forall j | 0 <= j < i :: alerts[1..][j].severity != High;
          assert alerts[i + 1] == r.value && forall j | 0 <= j < i + 1 :: alerts[j].severity != High;
        }
      }
      r
  }

  /** Alerts below high severity never reach the dispatcher. */
  lemma {:induction false} OnlyHighAlertsNotify(config: AlertService.AlertConfig, ready: bool, st: AlertService.Dispatcher,
                                               alerts: seq<AlertData>, nowMs: int, stamp: string,
                                               deliver: (nat, AlertService.Channel, string) -> AlertService.SendResult)
    requires forall i | 0 <= i < |alerts| :: alerts[i].severity != High
    ensures Notify(config, ready, st, alerts, nowMs, stamp, deliver) == st
    decreases |alerts|
  {
    if |alerts| > 0 {
      OnlyHighAlertsNotify(config, ready, st, alerts[1..], nowMs, stamp, deliver);
    }
  }

  predicate SameKey(alerts: seq<AlertData>, ip: Option<string>) {
    forall i | 0 <= i < |alerts| :: alerts[i].ip == ip
  }

  /** Once a key is rate-limited at `nowMs`, notifying alerts with that key changes nothing. */
  lemma {:induction false} LimitedKeyNotifiesNothing(config: AlertService.AlertConfig, ready: bool, st: AlertService.Dispatcher,
                                                    alerts: seq<AlertData>, ip: Option<string>, nowMs: int, stamp: string,
                                                    deliver: (nat, AlertService.Channel, string) -> AlertService.SendResult)
    requires SameKey(alerts, ip)
    requires AlertService.RateLimited(st.lastAlertTimes, ip, nowMs, config.rateLimitMinutes)
    ensures Notify(config, ready, st, alerts, nowMs, stamp, deliver) == st
    decreases |alerts|
  {
    if |alerts| > 0 {
      assert NotifyOne(config, ready, st, alerts[0], nowMs, stamp, deliver) == st;
      LimitedKeyNotifiesNothing(config, ready, st, alerts[1..], ip, nowMs, stamp, deliver);
    }
  }

  /** With a positive cooldown, the alerts of one analysis (which all carry the attempt's
      IP) cause at most one dispatch: the first high-severity alert is dispatched (or
      suppressed by an earlier alert), and every later one finds its key rate-limited. */
  lemma {:induction false} OneDispatchPerKey(config: AlertService.AlertConfig, ready: bool, st: AlertService.Dispatcher,
                                            alerts: seq<AlertData>, ip: Option<string>, nowMs: int, stamp: string,
                                            deliver: (nat, AlertService.Channel, string) -> AlertService.SendResult)
    requires SameKey(alerts, ip) && config.rateLimitMinutes > 0 && nowMs != 0
    ensures Notify(config, ready, st, alerts, nowMs, stamp, deliver) ==
      match FirstHigh(alerts)
      case None => st
      case Some(a) => AlertService.Dispatch(config, ready, st, a, nowMs, stamp, deliver).1
    decreases |alerts|
  {
    if |alerts| > 0 {
      var a := alerts[0];
      if a.severity == High {
        var st1 := AlertService.Dispatch(config, ready, st, a, nowMs, stamp, deliver).1;
        assert AlertService.RateLimited(st1.lastAlertTimes, ip, nowMs, config.rateLimitMinutes);
        LimitedKeyNotifiesNothing(config, ready, st1, alerts[1..], ip, nowMs, stamp, deliver);
      } else {
        OneDispatchPerKey(config, ready, st, alerts[1..], ip, nowMs, stamp, deliver);
      }
    }
  }

  /** The alerts the threats of one attempt produce. */
  function AlertsOf(ts: seq<Threat>, d: ActivityData): (alerts: seq<AlertData>)
    ensures |alerts| == |ts|
    ensures SameKey(alerts, d.ip)
    ensures forall i | 0 <= i < |ts| :: alerts[i] == AlertFor(ts[i], d)
  {
    seq(|ts|, i requires 0 <= i < |ts| => AlertFor(ts[i], d))
  }

  /** The analyzer with the store and the dispatcher it writes to. */
  class Analyzer {
    const db: Database.Database
    const notifier: AlertService.AlertService

    constructor (db: Database.Database, notifier: AlertService.AlertService)
      ensures this.db == db && this.notifier == notifier
    {
      this.db := db;
      this.notifier := notifier;
    }

    /** `processThreat`: one alert row, then a notification when the threat is high. */
    method ProcessThreat(t: Threat, d: ActivityData, nowSec: int, nowMs: int, stamp: string,
                         deliver: (nat, AlertService.Channel, string) -> AlertService.SendResult)
      returns (alertId: nat)
      modifies db`alerts, notifier`lastAlertTimes, notifier`outbox
      ensures db.alerts == old(db.alerts) + [Database.AlertRowOf(AlertFor(t, d), nowSec)]
      ensures alertId == |db.alerts|
      ensures notifier.State() ==
        NotifyOne(notifier.config, notifier.ready, old(notifier.State()), AlertFor(t, d), nowMs, stamp, deliver)
    {
      var alertData := AlertFor(t, d);
      alertId := db.CreateAlert(alertData, nowSec);
      if t.severity == High {
        var _ := notifier.SendAlert(alertData, nowMs, stamp, deliver);
      }
    }

    /** The loop of `analyzeActivity` over the threats it found. */
    method ProcessThreats(threats: seq<Threat>, d: ActivityData, nowSec: int, nowMs: int, stamp: string,
                          deliver: (nat, AlertService.Channel, string) -> AlertService.SendResult)
      modifies db`alerts, notifier`lastAlertTimes, notifier`outbox
      ensures db.alerts == old(db.alerts) + AlertRows(threats, d, nowSec)
      ensures notifier.State() ==
        Notify(notifier.config, notifier.ready, old(notifier.State()), AlertsOf(threats, d), nowMs, stamp, deliver)
    {
      ghost var alerts := AlertsOf(threats, d);
      for i := 0 to |threats|
        invariant db.alerts == old(db.alerts) + AlertRows(threats[..i], d, nowSec)
        invariant Notify(notifier.config, notifier.ready, notifier.State(), alerts[i..], nowMs, stamp, deliver)
          == Notify(notifier.config, notifier.ready, old(notifier.State()), alerts, nowMs, stamp, deliver)
      {
        ghost var before := notifier.State();
        ghost var rows := db.alerts;
        AlertRowsGrow(old(db.alerts), rows, threats, i, d, nowSec);
        var _ := ProcessThreat(threats[i], d, nowSec, nowMs, stamp, deliver);
        NotifyStep(notifier.config, notifier.ready, before, alerts, i, nowMs, stamp, deliver);
      }
      assert threats[..|threats|] == threats;
    }

    /** `analyzeActivity`: the threats found, one alert row per threat, and the
        notifications of the high ones. `readOk` is false when reading the history fails. */
    method AnalyzeActivity(d: ActivityData, readOk: bool, nowSec: int, nowMs: int, stamp: string,
                           deliver: (nat, AlertService.Channel, string) -> AlertService.SendResult)
      returns (threats: seq<Threat>)
      modifies db`alerts, notifier`lastAlertTimes, notifier`outbox
      ensures threats == Threats(d, if readOk then Some(old(db.activityLogs)) else None, nowSec)
      ensures db.alerts == old(db.alerts) + AlertRows(threats, d, nowSec)
      ensures notifier.State() ==
        Notify(notifier.config, notifier.ready, old(notifier.State()), AlertsOf(threats, d), nowMs, stamp, deliver)
    {
      var history := if readOk then Some(db.activityLogs) else None;
      threats := Threats(d, history, nowSec);
      ProcessThreats(threats, d, nowSec, nowMs, stamp, deliver);
    }
  }

  /** An illustration: a quoted SQL fragment typed into the email field. */
  const ExampleEmail: string := "admin' OR '1'='1"

  /** An illustration: the example email is an SQL-injection finding. */
  lemma ExampleEmailIsSql()
    ensures DetectSQLInjection(Some(ExampleEmail), Some("test"), None)
  {
    assert ExampleEmail == "admin" + "'" + " OR '1'='1";
    ContainsInfix("admin", "'", " OR '1'='1");
    MetaCharacterIsSqlInjection(ExampleEmail);
    DetectorReadsPresentFields(SqlInjectionPatterns, Some(ExampleEmail), Some("test"), None);
  }

  /** An illustration: the example email is also admin targeting. */
  lemma ExampleEmailTargetsAdmin()
    ensures DetectAdminTargeting(Some(ExampleEmail))
  {
    assert Lower("admin") == "admin";
    AdminSubstringInEmail("", "admin", "' OR '1'='1");
    assert "" + "admin" + "' OR '1'='1" == ExampleEmail;
  }

  /** An illustration on one input: a quoted SQL fragment as email is reported first as
      SQL injection and also as admin targeting, both high. */
  lemma QuotedAdminEmailExample(history: Option<seq<Database.ActivityRow>>, nowSec: int, userAgent: Option<string>)
    ensures var d := ActivityData("Failed Login Attempt", Some(ExampleEmail), Some("test"), Some("10.0.0.50"),
                                  userAgent, Some(false), None, None, None, None);
      var ts := Threats(d, history, nowSec);
      && |ts| >= 2
      && ts[0] == Scored(SqlInjection, High, "SQL injection patterns detected in input")
      && HasKind(ts, AdminTargeting)
  {
    var d := ActivityData("Failed Login Attempt", Some(ExampleEmail), Some("test"), Some("10.0.0.50"),
                          userAgent, Some(false), None, None, None, None);
    ExampleEmailIsSql();
    ExampleEmailTargetsAdmin();
    ComposeReportsEachFinding(Detect(d, history, nowSec));
  }
}
