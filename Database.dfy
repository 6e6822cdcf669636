/** The SQLite store of the honeypot as in-memory tables: the activity log and the alert
    table are sequences of rows in insertion order (a row's AUTOINCREMENT id is its
    1-based position, as long as nothing is deleted), and `ip_tracking` is a map from the
    UNIQUE `ip_address` column to the rest of its row. Times are seconds, the resolution
    of `CURRENT_TIMESTAMP`. */
module Database {
  import opened Common
  import opened Masking

  datatype ActivityRow = ActivityRow(
    kind: string,
    email: Option<string>,
    passwordHash: Option<string>,
    ip: Option<string>,
    userAgent: Option<string>,
    success: bool,
    provider: Option<string>,
    profileId: Option<string>,
    payload: Option<string>,
    severity: Severity,
    createdAt: int)

  datatype AlertRow = AlertRow(
    title: string,
    description: string,
    severity: Severity,
    reasonCode: Option<string>,
    ip: Option<string>,
    email: Option<string>,
    alertSent: bool,
    resolved: bool,
    createdAt: int)

  datatype IpRow = IpRow(
    attemptCount: int,
    failedAttempts: int,
    successAttempts: int,
    firstSeen: int,
    lastSeen: int)

  /** What `logActivity` writes in `password_hash`: nothing for an absent or empty
      password, otherwise the password masked after its third character. */
  function StoredPassword(password: Option<string>): (r: Option<string>)
    ensures r.None? <==> !Present(password)
    ensures r.Some? ==> |r.value| == |password.value|
    ensures r.Some? ==> forall i | 0 <= i < |r.value| ::
      r.value[i] == if i < 3 then password.value[i] else '*'
  {
    if Present(password) then Some(Mask(password.value)) else None
  }

  /** The row `logActivity` inserts for `data` at time `now`: `success` defaults to false
      and `severity` to low, the password is masked, everything else is copied. */
  function ActivityRowOf(data: ActivityData, now: int): (r: ActivityRow)
    ensures r.success <==> data.success == Some(true)
    ensures r.severity == if data.severity.Some? then data.severity.value else Low
    ensures r.passwordHash == StoredPassword(data.password)
    ensures r.kind == data.kind && r.email == data.email && r.ip == data.ip
    ensures r.userAgent == data.userAgent && r.payload == data.payload && r.createdAt == now
    ensures r.provider == data.provider && r.profileId == data.profileId
  {
    ActivityRow(
      data.kind, data.email, StoredPassword(data.password), data.ip, data.userAgent,
      match data.success case Some(b) => b case None => false,
      data.provider, data.profileId, data.payload,
      match data.severity case Some(s) => s case None => Low,
      now)
  }

  /** The row `createAlert` inserts: the six given columns, `alert_sent` and `resolved`
      left at their default false. */
  function AlertRowOf(a: AlertData, now: int): (r: AlertRow)
    ensures !r.alertSent && !r.resolved
    ensures r.title == a.title && r.description == a.description && r.severity == a.severity
    ensures r.reasonCode == Some(a.reasonCode) && r.ip == a.ip && r.email == a.email
    ensures r.createdAt == now
  {
    AlertRow(a.title, a.description, a.severity, Some(a.reasonCode), a.ip, a.email, false, false, now)
  }

  /** Every tracked IP has seen as many attempts as failures and successes together. */
  predicate Balanced(tracking: map<string, IpRow>) {
    forall ip | ip in tracking ::
      tracking[ip].attemptCount == tracking[ip].failedAttempts + tracking[ip].successAttempts
  }

  /** `updateIPTracking` as intended: the UPDATE on an existing row, the INSERT for a new
      IP (attempt_count taken from its default 1). */
  function Track(tracking: map<string, IpRow>, ip: string, success: bool, now: int): (r: map<string, IpRow>)
  {
    var failed := if success then 0 else 1;
    var succeeded := if success then 1 else 0;
    if ip in tracking then
      var row := tracking[ip];
      tracking[ip := row.(attemptCount := row.attemptCount + 1,
                          failedAttempts := row.failedAttempts + failed,
                          successAttempts := row.successAttempts + succeeded,
                          lastSeen := now)]
    else
      tracking[ip := IpRow(1, failed, succeeded, now, now)]
  }

  /** One attempt is counted for `ip`, as exactly one failure or one success, and no other
      IP's row changes. */
  lemma TrackCountsOneAttempt(tracking: map<string, IpRow>, ip: string, success: bool, now: int)
    ensures var r := Track(tracking, ip, success, now);
      && r.Keys == tracking.Keys + {ip}
      && (forall other | other in tracking && other != ip :: r[other] == tracking[other])
      && r[ip].lastSeen == now
      && (ip in tracking ==>
            && r[ip].attemptCount == tracking[ip].attemptCount + 1
            && r[ip].firstSeen == tracking[ip].firstSeen
            && r[ip].failedAttempts == tracking[ip].failedAttempts + (if success then 0 else 1)
            && r[ip].successAttempts == tracking[ip].successAttempts + (if success then 1 else 0))
      && (ip !in tracking ==>
            r[ip] == IpRow(1, if success then 0 else 1, if success then 1 else 0, now, now))
  {
  }

  /** The upsert keeps attempt_count = failed_attempts + success_attempts for every IP. */
  lemma TrackKeepsBalance(tracking: map<string, IpRow>, ip: string, success: bool, now: int)
    requires Balanced(tracking)
    ensures Balanced(Track(tracking, ip, success, now))
  {
    var r := Track(tracking, ip, success, now);
    forall other | other in r
      ensures r[other].attemptCount == r[other].failedAttempts + r[other].successAttempts
    {
      if other != ip {
        assert r[other] == tracking[other];
      }
    }
  }

  /** `updateIPTracking` as written: the INSERT branch calls `db.prepare`, but no `db` is
      in scope there (the connection is `this.db`), so a new IP raises a ReferenceError
      inside the UPDATE's callback and gets no row. The error is thrown in the sqlite3
      callback, outside the Promise executor, so nothing catches it: the returned promise
      never settles, the login route that awaits it (server/routes/auth.js:34) never reaches
      `analyzeActivity`, and with no `uncaughtException` handler Node ends the process. */
  function TrackAsWritten(tracking: map<string, IpRow>, ip: string, success: bool, now: int): (r: Result<map<string, IpRow>>)
    ensures ip in tracking ==> r == Ok(Track(tracking, ip, success, now))
  {
    if ip in tracking then Ok(Track(tracking, ip, success, now)) else Err("ReferenceError: db is not defined")
  }

  /** As written, the first attempt from any IP fails and leaves the table without a row
      for it, whereas the intended upsert creates one; starting from the empty table no
      IP is ever tracked. */
  lemma AsWrittenNeverTracksNewIp(tracking: map<string, IpRow>, ip: string, success: bool, now: int)
    requires ip !in tracking
    ensures TrackAsWritten(tracking, ip, success, now).Err?
    ensures ip in Track(tracking, ip, success, now)
  {
  }

  /** The three tables. */
  class Database {
    var activityLogs: seq<ActivityRow>
    var alerts: seq<AlertRow>
    var ipTracking: map<string, IpRow>

    predicate Valid()
      reads this
    {
      Balanced(ipTracking)
    }

    constructor ()
      ensures Valid()
      ensures activityLogs == [] && alerts == [] && ipTracking == map[]
    {
      activityLogs := [];
      alerts := [];
      ipTracking := map[];
    }

    /** `logActivity`: appends one row and answers its id. */
    method LogActivity(data: ActivityData, now: int) returns (id: nat)
      modifies this`activityLogs
      ensures activityLogs == old(activityLogs) + [ActivityRowOf(data, now)]
      ensures id == |activityLogs|
    {
      activityLogs := activityLogs + [ActivityRowOf(data, now)];
      id := |activityLogs|;
    }

    /** `createAlert`: appends one row and answers its id. */
    method CreateAlert(a: AlertData, now: int) returns (id: nat)
      modifies this`alerts
      ensures alerts == old(alerts) + [AlertRowOf(a, now)]
      ensures id == |alerts|
    {
      alerts := alerts + [AlertRowOf(a, now)];
      id := |alerts|;
    }

    /** `updateIPTracking` with its INSERT branch working as intended. */
    method UpdateIPTracking(ip: string, success: bool, now: int)
      requires Valid()
      modifies this`ipTracking
      ensures Valid()
      ensures ipTracking == Track(old(ipTracking), ip, success, now)
    {
      var failed := if success then 0 else 1;
      var succeeded := if success then 1 else 0;
      if ip in ipTracking {
        var row := ipTracking[ip];
        ipTracking := ipTracking[ip := row.(attemptCount := row.attemptCount + 1,
                                            failedAttempts := row.failedAttempts + failed,
                                            successAttempts := row.successAttempts + succeeded,
                                            lastSeen := now)];
      } else {
        ipTracking := ipTracking[ip := IpRow(1, failed, succeeded, now, now)];
      }
      TrackKeepsBalance(old(ipTracking), ip, success, now);
    }
  }
}
