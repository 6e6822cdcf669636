/** The browser-side activity buffer: newest first, capped at 100 entries, with an alert
    heuristic over the attempts of the last five minutes from the same IP. An entry's
    `stamp` is the number `new Date(log.timestamp).getTime()` yields for its stored
    timestamp, `None` when that is NaN; `now` is `Date.now()`. */
module ClientLogger {
  import opened Common
  import opened Text
  import opened Bounded

  datatype ActivityLog = ActivityLog(
    kind: string,
    email: string,
    password: string,
    ip: string,
    userAgent: string,
    stamp: Option<int>)

  const RecentWindowMs: int := 300000

  /** `log.ip === ip && Date.now() - new Date(log.timestamp).getTime() < 300000`; any
      comparison with NaN is false. */
  predicate IsRecent(log: ActivityLog, ip: string, now: int) {
    log.ip == ip && log.stamp.Some? && now - log.stamp.value < RecentWindowMs
  }

  /** The number of buffered entries that are recent attempts from `ip`. */
  function RecentAttempts(logs: seq<ActivityLog>, ip: string, now: int): (n: nat)
    ensures n <= |logs|
    ensures n == 0 <==> forall i | 0 <= i < |logs| :: !IsRecent(logs[i], ip, now)
  {
    if |logs| == 0 then 0
    else (if IsRecent(logs[0], ip, now) then 1 else 0) + RecentAttempts(logs[1..], ip, now)
  }

  /** The recent-attempt count distributes over concatenation, and a single entry counts
      once exactly when it is a recent attempt from `ip`: the count is the number of such
      entries. */
  lemma {:induction false} RecentAttemptsAppend(a: seq<ActivityLog>, b: seq<ActivityLog>, ip: string, now: int)
    ensures RecentAttempts(a + b, ip, now) == RecentAttempts(a, ip, now) + RecentAttempts(b, ip, now)
    ensures forall e: ActivityLog :: RecentAttempts([e], ip, now) == if IsRecent(e, ip, now) then 1 else 0
  {
    if |a| > 0 {
      assert (a + b)[1..] == a[1..] + b;
      RecentAttemptsAppend(a[1..], b, ip, now);
    } else {
      assert a + b == b;
    }
    forall e: ActivityLog
      ensures RecentAttempts([e], ip, now) == if IsRecent(e, ip, now) then 1 else 0
    {
      assert [e][1..] == [];
    }
  }

  /** `shouldTriggerAlert` over the buffer as it stands after the new entry went in. */
  predicate ShouldTriggerAlert(logs: seq<ActivityLog>, activity: ActivityLog, now: int) {
    RecentAttempts(logs, activity.ip, now) >= 3 || Contains(activity.email, "admin") || |activity.password| > 20
  }

  /** The buffer as the source leaves it: the stored timestamp is a locale time of day
      such as "10:15:30 AM", which `new Date` does not parse, so the entry's stamp is NaN. */
  function LogAsWritten(logs: seq<ActivityLog>, activity: ActivityLog): (r: seq<ActivityLog>)
    ensures |r| >= 1 && r[0] == activity.(stamp := None)
    ensures |r| == (if |logs| < Capacity then |logs| + 1 else Capacity)
    ensures r[1..] == logs[..|r| - 1]
  {
    PrependThenCap(logs, activity.(stamp := None));
    Capped([activity.(stamp := None)] + logs)
  }

  /** As written, no entry ever carries a usable stamp, so the recent-attempt count stays
      0 and only the email and password tests can raise an alert. */
  lemma {:induction false} AsWrittenNeverCountsRecent(logs: seq<ActivityLog>, activity: ActivityLog, now: int)
    requires forall i | 0 <= i < |logs| :: logs[i].stamp.None?
    ensures forall i | 0 <= i < |LogAsWritten(logs, activity)| :: LogAsWritten(logs, activity)[i].stamp.None?
    ensures RecentAttempts(LogAsWritten(logs, activity), activity.ip, now) == 0
    ensures ShouldTriggerAlert(LogAsWritten(logs, activity), activity, now) <==>
      Contains(activity.email, "admin") || |activity.password| > 20
  {
    var r := LogAsWritten(logs, activity);
    forall i | 0 <= i < |r|
      ensures r[i].stamp.None?
    {
      if i > 0 {
        assert r[i] == r[1..][i - 1] == logs[i - 1];
      }
    }
  }

  /** The buffer with each entry stamped with the time it was logged. */
  class Logger {
    var activityLogs: seq<ActivityLog>

    predicate Valid()
      reads this
    {
      |activityLogs| <= Capacity
    }

    constructor ()
      ensures Valid() && activityLogs == []
    {
      activityLogs := [];
    }

    /** `logSuspiciousActivity`, with the entry stamped `now`: the entry goes in front,
        the buffer is cut back to its capacity, and the heuristic is evaluated on the new
        buffer; `alerted` tells whether the mock alert fired. */
    method LogSuspiciousActivity(activity: ActivityLog, now: int) returns (alerted: bool)
      requires Valid()
      modifies this
      ensures Valid()
      ensures activityLogs == Capped([activity.(stamp := Some(now))] + old(activityLogs))
      ensures alerted == ShouldTriggerAlert(activityLogs, activity, now)
    {
      activityLogs := [activity.(stamp := Some(now))] + activityLogs;
      if |activityLogs| > Capacity {
        activityLogs := activityLogs[..Capacity];
      }
      alerted := ShouldTriggerAlert(activityLogs, activity, now);
    }

    /** `getActivityLogs`: the buffer itself. */
    function GetActivityLogs(): (logs: seq<ActivityLog>)
      reads this
      requires Valid()
      ensures logs == activityLogs && |logs| <= Capacity
    {
      activityLogs
    }
  }

  /** With entries stamped when logged, the attempt being logged counts toward its own
      threshold: two recent attempts from an IP already buffered (the buffer not yet
      full) make the third one alert. */
  lemma ThirdRecentAttemptAlerts(logs: seq<ActivityLog>, activity: ActivityLog, now: int)
    requires |logs| < Capacity
    requires RecentAttempts(logs, activity.ip, now) >= 2
    ensures ShouldTriggerAlert(Capped([activity.(stamp := Some(now))] + logs), activity, now)
  {
    var e := activity.(stamp := Some(now));
    assert Capped([e] + logs) == [e] + logs;
    assert ([e] + logs)[1..] == logs;
  }
}
