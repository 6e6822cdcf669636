/** The notification dispatcher: per-key rate limiting over a map of last send times, a
    fixed message template, and independent delivery attempts on SMS and then WhatsApp.
    The messaging API is an abstract `deliver` function: its answer for the n-th network
    call of the process, so any sequence of successes and failures can be described; the
    dispatcher's `outbox` records which calls were made, in order. Times are
    milliseconds (`Date.now()`). */
module AlertService {
  import opened Common
  import opened Text

  datatype Channel = Sms | WhatsApp

  /** What a channel sender answers: `{success: true, id}` or `{success: false, error}`. */
  datatype SendResult = Sent(id: string) | NotSent(error: string)

  /** One entry of `results`: the channel, whether it succeeded and the message id. */
  datatype ChannelResult = ChannelResult(channel: Channel, success: bool, id: Option<string>)

  /** One call into the messaging API. */
  datatype Delivery = Delivery(channel: Channel, body: string)

  /** `false` for a rate-limited alert, `{success: true, results}` otherwise. */
  datatype DispatchOutcome = Suppressed | Dispatched(results: seq<ChannelResult>)

  /** The dispatcher's mutable state: `lastAlertTimes` and the calls made so far. */
  datatype Dispatcher = Dispatcher(lastAlertTimes: map<Option<string>, int>, outbox: seq<Delivery>)

  /** The environment variables the service reads. */
  datatype Environment = Environment(
    alertPhoneNumber: Option<string>,
    alertWhatsAppNumber: Option<string>,
    enableSmsAlerts: Option<string>,
    enableWhatsAppAlerts: Option<string>,
    enableEmailAlerts: Option<string>,
    alertRateLimitMinutes: Option<string>,
    twilioAccountSid: Option<string>,
    twilioAuthToken: Option<string>)

  datatype AlertConfig = AlertConfig(
    phoneNumber: string,
    whatsappNumber: string,
    enableSms: bool,
    enableWhatsApp: bool,
    enableEmail: bool,
    rateLimitMinutes: int)

  const DefaultRateLimitMinutes: int := 5

  // ---------------------------------------------------------------- configuration

  /** `parseInt(ALERT_RATE_LIMIT_MINUTES) || 5`: NaN (absent or non-numeric) and 0 fall
      back to 5; any other parsed number, negative ones included, is kept. */
  function RateLimitMinutes(setting: Option<string>): (r: int)
    ensures r != 0
    ensures setting.None? ==> r == DefaultRateLimitMinutes
    ensures setting.Some? ==>
      r == match ParseIntJs(setting.value)
           case Some(n) => if n != 0 then n else DefaultRateLimitMinutes
           case None => DefaultRateLimitMinutes
  {
    // parseInt(undefined) reads the text "undefined", which has no digit
    var parsed := if setting.Some? then ParseIntJs(setting.value) else None;
    match parsed
    case Some(n) => if n != 0 then n else DefaultRateLimitMinutes
    case None => DefaultRateLimitMinutes
  }

  /** A positive number of minutes written in decimal is the cooldown used. */
  lemma RateLimitReadsSetting(n: nat)
    requires n > 0
    ensures RateLimitMinutes(Some(NatStr(n))) == n
  {
    ParseIntOfNatStr(n);
  }

  function ConfigFromEnvironment(env: Environment): (c: AlertConfig)
    ensures c.enableSms <==> env.enableSmsAlerts == Some("true")
    ensures c.enableWhatsApp <==> env.enableWhatsAppAlerts == Some("true")
    ensures c.enableEmail <==> env.enableEmailAlerts == Some("true")
    ensures c.rateLimitMinutes == RateLimitMinutes(env.alertRateLimitMinutes)
    ensures c.phoneNumber == OrElse(env.alertPhoneNumber, "+1234567890")
    ensures c.whatsappNumber == OrElse(env.alertWhatsAppNumber, "whatsapp:+1234567890")
  {
    AlertConfig(
      OrElse(env.alertPhoneNumber, "+1234567890"),
      OrElse(env.alertWhatsAppNumber, "whatsapp:+1234567890"),
      env.enableSmsAlerts == Some("true"),
      env.enableWhatsAppAlerts == Some("true"),
      env.enableEmailAlerts == Some("true"),
      RateLimitMinutes(env.alertRateLimitMinutes))
  }

  /** Whether `initializeTwilio` ends with a client (and so with both `smsEnabled` and
      `whatsappEnabled` set): both credentials present and the client constructor not
      throwing (`clientCreated`). */
  predicate ClientReady(env: Environment, clientCreated: bool) {
    Present(env.twilioAccountSid) && Present(env.twilioAuthToken) && clientCreated
  }

  // ---------------------------------------------------------------- rate limiting

  /** `isRateLimited`: no stored time (or a stored 0, which is falsy) never limits;
      otherwise the alert is limited while strictly less than the cooldown has passed. */
  predicate RateLimited(times: map<Option<string>, int>, key: Option<string>, now: int, minutes: int) {
    key in times && times[key] != 0 && now - times[key] < minutes * 60 * 1000
  }

  // ---------------------------------------------------------------- the message

  function Emoji(s: Severity): string {
    match s
    case High => "\U{1F6A8}"
    case Medium => "\U{26A0}\U{FE0F}"
    case Low => "\U{2139}\U{FE0F}"
  }

  const Footer: string := "This is an automated " + "security alert " + "from your honeypot system."

  /** The lines of the alert text; `stamp` is the formatted local time. */
  function AlertLines(a: AlertData, stamp: string): seq<string> {
    [ Emoji(a.severity) + " HONEYPOT ALERT",
      "",
      a.title,
      "",
      "Details: " + a.description,
      "Severity: " + Upper(a.severity.Label()),
      "IP Address: " + OrElse(a.ip, "Unknown"),
      "Email: " + OrElse(a.email, "N/A"),
      "Time: " + stamp,
      "",
      Footer ]
  }

  /** `formatAlertMessage`. */
  function FormatAlertMessage(a: AlertData, stamp: string): string {
    Join(AlertLines(a, stamp), '\n')
  }

  predicate SingleLine(s: string) {
    '\n' !in s
  }

  /** When no field spans several lines, the message reads back line by line: the
      severity upper-cased, "Unknown" for a missing IP and "N/A" for a missing email. */
  lemma MessageReadsBack(a: AlertData, stamp: string)
    requires SingleLine(a.title) && SingleLine(a.description) && SingleLine(stamp)
    requires a.ip.Some? ==> SingleLine(a.ip.value)
    requires a.email.Some? ==> SingleLine(a.email.value)
    ensures var lines := Split(FormatAlertMessage(a, stamp), '\n');
      && |lines| == 11
      && lines[0] == Emoji(a.severity) + " HONEYPOT ALERT"
      && lines[2] == a.title
      && lines[4] == "Details: " + a.description
      && lines[5] == "Severity: " + Upper(a.severity.Label())
      && lines[6] == "IP Address: " + (if Present(a.ip) then a.ip.value else "Unknown")
      && lines[7] == "Email: " + (if Present(a.email) then a.email.value else "N/A")
      && lines[8] == "Time: " + stamp
  {
    LinesAreSingle(a, stamp);
    SplitJoin(AlertLines(a, stamp), '\n');
  }

  lemma FooterIsSingleLine()
    ensures SingleLine(Footer)
  {
    assert SingleLine("This is an automated ");
    assert SingleLine("security alert ");
    assert SingleLine("from your honeypot system.");
  }

  lemma UpperIsSingleLine(s: string)
    requires SingleLine(s)
    ensures SingleLine(Upper(s))
  {
    var u := Upper(s);
    forall i | 0 <= i < |u|
      ensures u[i] != '\n'
    {
      assert u[i] == UpperChar(s[i]);
    }
  }

  lemma LinesAreSingle(a: AlertData, stamp: string)
    requires SingleLine(a.title) && SingleLine(a.description) && SingleLine(stamp)
    requires a.ip.Some? ==> SingleLine(a.ip.value)
    requires a.email.Some? ==> SingleLine(a.email.value)
    ensures forall k | 0 <= k < |AlertLines(a, stamp)| :: '\n' !in AlertLines(a, stamp)[k]
  {
    var ls := AlertLines(a, stamp);
    FooterIsSingleLine();
    UpperIsSingleLine(a.severity.Label());
    assert SingleLine(OrElse(a.ip, "Unknown")) && SingleLine(OrElse(a.email, "N/A"));
    assert SingleLine(Emoji(a.severity));
  }

  // ---------------------------------------------------------------- sending

  /** `sendSMS` / `sendWhatsApp`: without a client nothing is called and the answer is a
      failure; otherwise one API call is made and its answer (or the error it threw) is
      returned. Neither ever throws. */
  function Send(ready: bool, outbox: seq<Delivery>, channel: Channel, body: string,
                deliver: (nat, Channel, string) -> SendResult): (r: (seq<Delivery>, SendResult))
    ensures |r.0| == |outbox| + (if ready then 1 else 0) && r.0[..|outbox|] == outbox
    ensures ready ==> r.0[|outbox|] == Delivery(channel, body) && r.1 == deliver(|outbox|, channel, body)
    ensures !ready ==> r.1 == NotSent("Twilio not configured")
  {
    if ready then (outbox + [Delivery(channel, body)], deliver(|outbox|, channel, body))
    else (outbox, NotSent("Twilio not configured"))
  }

  function ResultOf(channel: Channel, r: SendResult): ChannelResult {
    ChannelResult(channel, r.Sent?, if r.Sent? then Some(r.id) else None)
  }

  /** The channels `sendAlert` attempts, in order. */
  function EnabledChannels(config: AlertConfig, ready: bool): (chs: seq<Channel>)
    ensures |chs| <= 2
    ensures Sms in chs <==> config.enableSms && ready
    ensures WhatsApp in chs <==> config.enableWhatsApp && ready
    ensures |chs| == 2 ==> chs == [Sms, WhatsApp]
  {
    (if config.enableSms && ready then [Sms] else [])
    + (if config.enableWhatsApp && ready then [WhatsApp] else [])
  }

  function Deliveries(chs: seq<Channel>, body: string): (ds: seq<Delivery>)
    ensures |ds| == |chs|
    ensures forall i | 0 <= i < |chs| :: ds[i] == Delivery(chs[i], body)
  {
    seq(|chs|, i requires 0 <= i < |chs| => Delivery(chs[i], body))
  }

  /** One `if (this.config.enableX && this.xEnabled)` block of `sendAlert`: the calls
      made so far and the entries it adds to `results`. */
  function Attempt(enabled: bool, outbox: seq<Delivery>, channel: Channel, body: string,
                   deliver: (nat, Channel, string) -> SendResult): (seq<Delivery>, seq<ChannelResult>)
  {
    if enabled then
      var sent := Send(true, outbox, channel, body, deliver);
      (sent.0, [ResultOf(channel, sent.1)])
    else (outbox, [])
  }

  /** `sendAlert` on the dispatcher's state. */
  function Dispatch(config: AlertConfig, ready: bool, st: Dispatcher, a: AlertData, now: int, stamp: string,
                    deliver: (nat, Channel, string) -> SendResult): (DispatchOutcome, Dispatcher)
  {
    if RateLimited(st.lastAlertTimes, a.ip, now, config.rateLimitMinutes) then (Suppressed, st)
    else
      var body := FormatAlertMessage(a, stamp);
      var sms := Attempt(config.enableSms && ready, st.outbox, Sms, body, deliver);
      var whatsApp := Attempt(config.enableWhatsApp && ready, sms.0, WhatsApp, body, deliver);
      (Dispatched(sms.1 + whatsApp.1), Dispatcher(st.lastAlertTimes[a.ip := now], whatsApp.0))
  }

  /** A rate-limited alert attempts no channel and changes nothing. */
  lemma RateLimitedDispatchChangesNothing(config: AlertConfig, ready: bool, st: Dispatcher, a: AlertData,
                                          now: int, stamp: string, deliver: (nat, Channel, string) -> SendResult)
    requires RateLimited(st.lastAlertTimes, a.ip, now, config.rateLimitMinutes)
    ensures Dispatch(config, ready, st, a, now, stamp, deliver) == (Suppressed, st)
  {
  }

  /** Otherwise every enabled channel is attempted once, in order, with the same text;
      each result is that channel's own answer, so a failed SMS never prevents the
      WhatsApp attempt; the call succeeds whatever the channels answered; and the key's
      time becomes `now` while no other key changes. */
  lemma DispatchAttemptsEveryChannel(config: AlertConfig, ready: bool, st: Dispatcher, a: AlertData,
                                     now: int, stamp: string, deliver: (nat, Channel, string) -> SendResult)
    requires !RateLimited(st.lastAlertTimes, a.ip, now, config.rateLimitMinutes)
    ensures var (out, st') := Dispatch(config, ready, st, a, now, stamp, deliver);
      var chs := EnabledChannels(config, ready);
      var body := FormatAlertMessage(a, stamp);
      && out.Dispatched?
      && |out.results| == |chs|
      && (forall i | 0 <= i < |chs| ::
            out.results[i] == ResultOf(chs[i], deliver(|st.outbox| + i, chs[i], body)))
      && st'.outbox == st.outbox + Deliveries(chs, body)
      && st'.lastAlertTimes.Keys == st.lastAlertTimes.Keys + {a.ip}
      && st'.lastAlertTimes[a.ip] == now
      && (forall k | k in st.lastAlertTimes && k != a.ip :: st'.lastAlertTimes[k] == st.lastAlertTimes[k])
  {
    var (out, st') := Dispatch(config, ready, st, a, now, stamp, deliver);
    var chs := EnabledChannels(config, ready);
    var body := FormatAlertMessage(a, stamp);
    assert st'.outbox == st.outbox + Deliveries(chs, body);
  }

  /** The cooldown counts from the last dispatch whatever its channels answered: a second
      alert with the same key (every IP-less alert has the same key) is suppressed
      exactly while less than the cooldown has passed, and allowed again at the
      boundary. */
  lemma CooldownAfterDispatch(config: AlertConfig, ready: bool, st: Dispatcher, a: AlertData, b: AlertData,
                              now: int, later: int, stamp: string, deliver: (nat, Channel, string) -> SendResult)
    requires !RateLimited(st.lastAlertTimes, a.ip, now, config.rateLimitMinutes)
    requires b.ip == a.ip && now != 0
    ensures var st' := Dispatch(config, ready, st, a, now, stamp, deliver).1;
      var limited := RateLimited(st'.lastAlertTimes, b.ip, later, config.rateLimitMinutes);
      limited <==> later - now < config.rateLimitMinutes * 60000
  {
  }

  // ---------------------------------------------------------------- the service object

  class AlertService {
    const config: AlertConfig
    /** A Twilio client exists; `smsEnabled` and `whatsappEnabled` are set with it. */
    const ready: bool
    var lastAlertTimes: map<Option<string>, int>
    var outbox: seq<Delivery>

    constructor (env: Environment, clientCreated: bool)
      ensures config == ConfigFromEnvironment(env) && ready == ClientReady(env, clientCreated)
      ensures lastAlertTimes == map[] && outbox == []
    {
      config := ConfigFromEnvironment(env);
      ready := ClientReady(env, clientCreated);
      lastAlertTimes := map[];
      outbox := [];
    }

    function State(): Dispatcher
      reads this
    {
      Dispatcher(lastAlertTimes, outbox)
    }

    /** `updateRateLimit`. */
    method UpdateRateLimit(key: Option<string>, now: int)
      modifies this`lastAlertTimes
      ensures lastAlertTimes == old(lastAlertTimes)[key := now]
    {
      lastAlertTimes := lastAlertTimes[key := now];
    }

    /** `sendSMS` and `sendWhatsApp`. */
    method SendOn(channel: Channel, body: string, deliver: (nat, Channel, string) -> SendResult) returns (r: SendResult)
      modifies this`outbox
      ensures (outbox, r) == Send(ready, old(outbox), channel, body, deliver)
    {
      if !ready {
        return NotSent("Twilio not configured");
      }
      r := deliver(|outbox|, channel, body);
      outbox := outbox + [Delivery(channel, body)];
    }

    /** `sendAlert`. */
    method SendAlert(a: AlertData, now: int, stamp: string, deliver: (nat, Channel, string) -> SendResult)
      returns (r: DispatchOutcome)
      modifies this`lastAlertTimes, this`outbox
      ensures (r, State()) == Dispatch(config, ready, old(State()), a, now, stamp, deliver)
    {
      if RateLimited(lastAlertTimes, a.ip, now, config.rateLimitMinutes) {
        return Suppressed;
      }
      var body := FormatAlertMessage(a, stamp);
      var results: seq<ChannelResult> := [];
      if config.enableSms && ready {
        var sms := SendOn(Sms, body, deliver);
        results := [ResultOf(Sms, sms)];
      }
      ghost var smsResults := results;
      assert (outbox, smsResults) == Attempt(config.enableSms && ready, old(outbox), Sms, body, deliver);
      ghost var afterSms := outbox;
      if config.enableWhatsApp && ready {
        var whatsApp := SendOn(WhatsApp, body, deliver);
        results := results + [ResultOf(WhatsApp, whatsApp)];
      }
      assert (outbox, results[|smsResults|..]) == Attempt(config.enableWhatsApp && ready, afterSms, WhatsApp, body, deliver);
      assert results == smsResults + results[|smsResults|..];
      UpdateRateLimit(a.ip, now);
      r := Dispatched(results);
    }
  }
}
