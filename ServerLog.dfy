/** The demo server's in-memory state: the newest-first activity log capped at 100
    entries, the newest-first list of demo alerts (never truncated), the alert heuristic,
    the masked login record and the dashboard statistics. Clock readings (the entry id
    `Date.now()` and the two formatted time strings) are parameters. */
module ServerLog {
  import opened Common
  import opened Text
  import opened Masking
  import opened Bounded

  /** The object handed to `logSuspiciousActivity`. */
  datatype Activity = Activity(
    kind: string,
    email: Option<string>,
    password: Option<string>,
    ip: Option<string>,
    userAgent: Option<string>,
    provider: Option<string>,
    profileId: Option<string>,
    timestamp: Option<string>)

  /** `{...activity, timestamp, id}`. */
  datatype LogEntry = LogEntry(activity: Activity, id: int)

  datatype DemoAlert = DemoAlert(title: string, description: string, level: string, timestamp: string, ip: string)

  datatype Stats = Stats(totalAttempts: nat, uniqueIPs: nat, socialLogins: nat, failedLogins: nat, highAlerts: nat)

  /** The log entry: every field of the activity, the timestamp replaced, an id added. */
  function Entry(a: Activity, timeStamp: string, id: int): (e: LogEntry)
    ensures e.activity.timestamp == Some(timeStamp) && e.id == id
    ensures e.activity.(timestamp := a.timestamp) == a
  {
    LogEntry(a.(timestamp := Some(timeStamp)), id)
  }

  /** `shouldTriggerAlert`: `type.includes('Social Login') || email.includes('admin') ||
      type.includes('Failed Login')`, evaluated left to right, so an absent email throws
      unless the first test already decided. */
  function ShouldTriggerAlert(a: Activity): (r: Result<bool>)
    ensures r == Ok(true) <==>
      Contains(a.kind, "Social Login")
      || (a.email.Some? && (Contains(a.email.value, "admin") || Contains(a.kind, "Failed Login")))
    ensures r == Ok(false) <==>
      !Contains(a.kind, "Social Login") && a.email.Some?
      && !Contains(a.email.value, "admin") && !Contains(a.kind, "Failed Login")
    ensures r.Err? <==> !Contains(a.kind, "Social Login") && a.email.None?
  {
    if Contains(a.kind, "Social Login") then Ok(true)
    else match a.email
      case None => Err("TypeError: Cannot read properties of undefined (reading 'includes')")
      case Some(email) => Ok(Contains(email, "admin") || Contains(a.kind, "Failed Login"))
  }

  /** The alert `logSuspiciousActivity` prepends. */
  function AlertOf(a: Activity, dateStamp: string): (alert: DemoAlert)
    ensures alert.level == "high"
    ensures alert.ip == OrElse(a.ip, "unknown")
    ensures alert.title == "Suspicious " + OrElse(a.provider, "Login") + " Activity"
    ensures alert.description == a.kind + " detected from " + Show(a.email)
  {
    DemoAlert("Suspicious " + OrElse(a.provider, "Login") + " Activity",
              a.kind + " detected from " + Show(a.email),
              "high", dateStamp, OrElse(a.ip, "unknown"))
  }

  /** The activity `/api/login` logs: the password masked after its third character;
      `password.slice` throws when no password was posted. */
  function LoginActivity(email: Option<string>, password: Option<string>, ip: Option<string>,
                         userAgent: Option<string>, isoStamp: string): (r: Result<Activity>)
    ensures r.Err? <==> password.None?
    ensures r.Ok? ==>
      && r.value.kind == "Failed Login Attempt" && r.value.email == email && r.value.ip == ip
      && r.value.password.Some? && |r.value.password.value| == |password.value|
      && (forall i | 0 <= i < |password.value| ::
            r.value.password.value[i] == if i < 3 then password.value[i] else '*')
  {
    match password
    case None => Err("TypeError: Cannot read properties of undefined (reading 'slice')")
    case Some(p) => Ok(Activity("Failed Login Attempt", email, Some(Mask(p)), ip, userAgent, None, None, Some(isoStamp)))
  }

  /** Posting a password of more than three characters never logs it in clear. */
  lemma LoginNeverLogsLongPassword(email: Option<string>, password: string, ip: Option<string>,
                                   userAgent: Option<string>, isoStamp: string)
    requires |password| > 3 && password[3] != '*'
    ensures LoginActivity(email, Some(password), ip, userAgent, isoStamp).value.password != Some(password)
  {
    var logged := LoginActivity(email, Some(password), ip, userAgent, isoStamp).value.password.value;
    assert logged[3] == '*';
  }

  // ---------------------------------------------------------------- statistics

  /** How many entries have a type containing `needle`. */
  function CountKind(logs: seq<LogEntry>, needle: string): (n: nat)
    ensures n <= |logs|
    ensures n == 0 <==> forall i | 0 <= i < |logs| :: !Contains(logs[i].activity.kind, needle)
    ensures n == |logs| <==> forall i | 0 <= i < |logs| :: Contains(logs[i].activity.kind, needle)
  {
    if |logs| == 0 then 0
    else
      var init := logs[..|logs| - 1];
      assert forall i | 0 <= i < |init| :: init[i] == logs[i];
      CountKind(init, needle) + (if Contains(logs[|logs| - 1].activity.kind, needle) then 1 else 0)
  }

  /** `new Set(activityLogs.map(log => log.ip))`; an absent ip is one more value. */
  function IpsOf(logs: seq<LogEntry>): (ips: set<Option<string>>)
    ensures |ips| <= |logs|
    ensures forall ip :: ip in ips <==> exists i | 0 <= i < |logs| :: logs[i].activity.ip == ip
  {
    if |logs| == 0 then {}
    else
      var init := logs[..|logs| - 1];
      var ips := IpsOf(init) + {logs[|logs| - 1].activity.ip};
      assert forall i | 0 <= i < |init| :: init[i] == logs[i];
      ips
  }

  /** Counting distributes over concatenation, and a single entry counts once exactly when
      its type contains the needle: the count is the number of matching entries. */
  lemma {:induction false} CountKindAppend(a: seq<LogEntry>, b: seq<LogEntry>, needle: string)
    ensures CountKind(a + b, needle) == CountKind(a, needle) + CountKind(b, needle)
    ensures forall e: LogEntry :: CountKind([e], needle) == if Contains(e.activity.kind, needle) then 1 else 0
    decreases |b|
  {
    if |b| > 0 {
      var b' := b[..|b| - 1];
      assert (a + b)[..|a + b| - 1] == a + b';
      CountKindAppend(a, b', needle);
    } else {
      assert a + b == a;
    }
    forall e: LogEntry
      ensures CountKind([e], needle) == if Contains(e.activity.kind, needle) then 1 else 0
    {
      assert [e][..0] == [];
    }
  }

  /** `alerts.filter(alert => alert.level === 'high').length`. */
  function CountHigh(alerts: seq<DemoAlert>): (n: nat)
    ensures n <= |alerts|
    ensures n == |alerts| <==> forall i | 0 <= i < |alerts| :: alerts[i].level == "high"
    ensures n == 0 <==> forall i | 0 <= i < |alerts| :: alerts[i].level != "high"
  {
    if |alerts| == 0 then 0
    else
      var init := alerts[..|alerts| - 1];
      assert forall i | 0 <= i < |init| :: init[i] == alerts[i];
      CountHigh(init) + (if alerts[|alerts| - 1].level == "high" then 1 else 0)
  }

  /** The number of high alerts is additive, and a single alert counts once exactly when
      its level is "high". */
  lemma {:induction false} CountHighAppend(a: seq<DemoAlert>, b: seq<DemoAlert>)
    ensures CountHigh(a + b) == CountHigh(a) + CountHigh(b)
    ensures forall x: DemoAlert :: CountHigh([x]) == if x.level == "high" then 1 else 0
    decreases |b|
  {
    if |b| > 0 {
      var b' := b[..|b| - 1];
      assert (a + b)[..|a + b| - 1] == a + b';
      CountHighAppend(a, b');
    } else {
      assert a + b == a;
    }
    forall x: DemoAlert
      ensures CountHigh([x]) == if x.level == "high" then 1 else 0
    {
      assert [x][..0] == [];
    }
  }

  /** `/api/stats`: the number of entries, of distinct IP values, of entries whose type
      mentions "Social" and "Failed", and of high alerts. */
  function StatsOf(logs: seq<LogEntry>, alerts: seq<DemoAlert>): (s: Stats)
    ensures s.totalAttempts == |logs|
    ensures s.uniqueIPs <= s.totalAttempts && (|logs| > 0 ==> s.uniqueIPs >= 1)
    ensures s.socialLogins <= s.totalAttempts && s.failedLogins <= s.totalAttempts
    ensures s.highAlerts <= |alerts|
    ensures (forall i | 0 <= i < |alerts| :: alerts[i].level == "high") ==> s.highAlerts == |alerts|
    ensures s.uniqueIPs == |IpsOf(logs)|
    ensures s.socialLogins == CountKind(logs, "Social") && s.failedLogins == CountKind(logs, "Failed")
    ensures s.highAlerts == CountHigh(alerts)
  {
    assert |logs| > 0 ==> logs[0].activity.ip in IpsOf(logs);
    Stats(|logs|, |IpsOf(logs)|, CountKind(logs, "Social"), CountKind(logs, "Failed"), CountHigh(alerts))
  }

  // ---------------------------------------------------------------- the module state

  class ServerLog {
    var activityLogs: seq<LogEntry>
    var alerts: seq<DemoAlert>

    /** The log never exceeds its capacity, and every alert is high. */
    predicate Valid()
      reads this
    {
      |activityLogs| <= Capacity && forall i | 0 <= i < |alerts| :: alerts[i].level == "high"
    }

    constructor ()
      ensures Valid() && activityLogs == [] && alerts == []
    {
      activityLogs := [];
      alerts := [];
    }

    /** `logSuspiciousActivity`: the entry goes in front and the log is cut back to its
        capacity; then the heuristic runs and, when it holds, the alert goes in front of
        the alerts. When the heuristic throws, the entry stays logged and no alert is
        added. */
    method LogSuspiciousActivity(activity: Activity, timeStamp: string, dateStamp: string, nowMs: int)
      returns (outcome: Result<bool>)
      requires Valid()
      modifies this
      ensures Valid()
      ensures activityLogs == Capped([Entry(activity, timeStamp, nowMs)] + old(activityLogs))
      ensures outcome == ShouldTriggerAlert(activity)
      ensures alerts == if outcome == Ok(true) then [AlertOf(activity, dateStamp)] + old(alerts) else old(alerts)
    {
      activityLogs := [Entry(activity, timeStamp, nowMs)] + activityLogs;
      if |activityLogs| > Capacity {
        activityLogs := activityLogs[..Capacity];
      }
      outcome := ShouldTriggerAlert(activity);
      if outcome == Ok(true) {
        alerts := [AlertOf(activity, dateStamp)] + alerts;
      }
    }

    /** The statistics of the current state: at most 100 attempts, and every alert
        counted as high. */
    function CurrentStats(): (s: Stats)
      reads this
      requires Valid()
      ensures s.totalAttempts <= Capacity && s.uniqueIPs <= s.totalAttempts
      ensures s.highAlerts == |alerts|
    {
      StatsOf(activityLogs, alerts)
    }
  }
}
