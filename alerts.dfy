/** The status/alert state machine as functions on the session's state:
    the alert channel's enable gate, alert logging, the manual and anomaly
    alert path, and the de-duplicated status transition. */
module Alerts {
  import opened Wrappers
  import opened Config

  /** The device's connectivity, `'online'` or `'offline'`. */
  datatype Status = Online | Offline {
    function Name(): (n: string)
      ensures n == "online" || n == "offline"
    {
      match this
      case Online => "online"
      case Offline => "offline"
    }

    function Flip(): (other: Status)
      ensures other != this
    {
      match this
      case Online => Offline
      case Offline => Online
    }
  }

  /** One entry of the alert history. */
  datatype Alert = Alert(timestamp: string, message: string)

  /** One HTTP GET to the bot's sendMessage endpoint: the token that is
      templated into the URL and the query parameters. */
  datatype Request = Request(botToken: Value, chatId: Value, text: string, parseMode: string)

  /** What the HTTP transport does with a request: a response with a status
      code, or an exception. */
  datatype HttpOutcome = Response(statusCode: int) | Raised(error: string)

  /** The fitted outlier model, seen only as its contamination setting and
      the number of fits done so far (a new number is a new instance). */
  datatype Detector = Detector(contamination: Value, fits: nat)

  /** The session's state. `attempts` lists every message handed to the
      alert channel; `requests` lists the HTTP requests it issued. */
  datatype AppState = AppState(
    config: Record,
    status: Status,
    history: seq<Alert>,
    attempts: seq<string>,
    requests: seq<Request>,
    detector: Detector)

  /** The session at start-up: the loaded configuration, an empty history,
      a detector fitted once with the configured threshold, and the status
      `offline` whatever the configuration's saved status says. */
  function InitialState(file: Option<Record>): (s: AppState)
    ensures HasDefaultKeys(s.config) && s.config == LoadConfig(file)
    ensures s.status == Offline
    ensures s.history == [] && s.attempts == [] && s.requests == []
    ensures s.detector.fits == 1 && s.detector.contamination == s.config[ThresholdKey]
  {
    var c := LoadConfig(file);
    AppState(c, Offline, [], [], [], Detector(c[ThresholdKey], 1))
  }

  // ---------------------------------------------------------------------
  // Messages

  const OnlineHeader: string := "🟢 Device Online"
  const OfflineHeader: string := "🔴 Device Offline"
  const TimestampLabel: string := "\nTimestamp: "
  const ErrorLabel: string := "\nError: "

  /** The message of the "Test Alert" button. */
  const TestAlertMessage: string := "🔔 Test alert from System Monitor"

  /** `if error_message:` for an optional string. */
  predicate HasError(error: Option<string>) {
    error.Some? && error.value != ""
  }

  /** The message of a transition to `status` at `timestamp`: it opens with
      that status's header, the timestamp label and the timestamp. */
  function StatusMessage(status: Status, timestamp: string, error: Option<string>): (msg: string)
    ensures (if status == Online then OnlineHeader else OfflineHeader) + TimestampLabel + timestamp <= msg
  {
    match status
    case Online => OnlineHeader + TimestampLabel + timestamp
    case Offline =>
      OfflineHeader + TimestampLabel + timestamp
      + (if HasError(error) then ErrorLabel + error.value else "")
  }

  /** The status a message announces, read from its header. */
  function AnnouncedStatus(msg: string): Option<Status> {
    if OnlineHeader <= msg then Some(Online)
    else if OfflineHeader <= msg then Some(Offline)
    else None
  }

  /** The online message never carries an error; the offline message gets
      the error line exactly when a non-empty error is given. */
  lemma StatusMessageText(timestamp: string, error: Option<string>)
    ensures StatusMessage(Online, timestamp, error) == OnlineHeader + TimestampLabel + timestamp
    ensures !HasError(error) ==>
      StatusMessage(Offline, timestamp, error) == OfflineHeader + TimestampLabel + timestamp
    ensures HasError(error) ==>
      StatusMessage(Offline, timestamp, error)
        == StatusMessage(Offline, timestamp, None) + ErrorLabel + error.value
  {
  }

  /** Every status message announces the status it was built for. */
  lemma StatusMessageAnnounces(status: Status, timestamp: string, error: Option<string>)
    ensures AnnouncedStatus(StatusMessage(status, timestamp, error)) == Some(status)
  {
    var msg := StatusMessage(status, timestamp, error);
    match status
    case Online =>
      assert msg == OnlineHeader + (TimestampLabel + timestamp);
    case Offline =>
      assert msg[..|OfflineHeader|] == OfflineHeader;
      assert msg[0] != OnlineHeader[0];
  }

  /** The timestamp can be read back from a status message: it stands right
      after the header and label. */
  lemma StatusMessageTimestamp(status: Status, timestamp: string, error: Option<string>)
    ensures var base := (if status == Online then OnlineHeader else OfflineHeader) + TimestampLabel;
      var msg := StatusMessage(status, timestamp, error);
      |base| + |timestamp| <= |msg| && msg[|base|..|base| + |timestamp|] == timestamp
  {
    var base := (if status == Online then OnlineHeader else OfflineHeader) + TimestampLabel;
    var tail := if status == Offline && HasError(error) then ErrorLabel + error.value else "";
    assert StatusMessage(status, timestamp, error) == base + timestamp + tail;
  }

  // ---------------------------------------------------------------------
  // The alert channel

  /** The request send_telegram_message builds; reading the token or the
      chat id of a configuration without them raises, which the channel
      catches, so no request is made. */
  function BuildRequest(c: Record, text: string): (r: Option<Request>)
    ensures r.Some? <==> BotTokenKey in c && ChatIdKey in c
    ensures r.Some? ==> r.value.text == text && r.value.parseMode == "HTML"
    ensures r.Some? ==> r.value.botToken == c[BotTokenKey] && r.value.chatId == c[ChatIdKey]
  {
    if BotTokenKey in c && ChatIdKey in c
    then Some(Request(c[BotTokenKey], c[ChatIdKey], text, "HTML"))
    else None
  }

  /** The state after handing `msg` to send_telegram_message: the attempt
      is recorded; a request goes out only when alerts are enabled. */
  function Send(s: AppState, msg: string): (r: AppState)
    ensures r.config == s.config && r.status == s.status && r.history == s.history && r.detector == s.detector
    ensures r.attempts == s.attempts + [msg]
    ensures !AlertsEnabled(s.config) ==> r.requests == s.requests
    ensures AlertsEnabled(s.config) && HasDefaultKeys(s.config) ==>
      r.requests == s.requests + [Request(s.config[BotTokenKey], s.config[ChatIdKey], msg, "HTML")]
    ensures |s.requests| <= |r.requests| <= |s.requests| + 1 && r.requests[..|s.requests|] == s.requests
  {
    var s1 := s.(attempts := s.attempts + [msg]);
    if !AlertsEnabled(s.config) then s1
    else
      match BuildRequest(s.config, msg)
      case None => s1
      case Some(req) => s1.(requests := s1.requests + [req])
  }

  /** send_telegram_message's result: true only when alerts are enabled, a
      request was made and it answered with status 200 exactly. */
  function Delivered(s: AppState, msg: string, transport: Request -> HttpOutcome): (ok: bool)
    ensures ok ==> AlertsEnabled(s.config) && |Send(s, msg).requests| == |s.requests| + 1
    ensures ok ==> transport(Send(s, msg).requests[|s.requests|]) == Response(200)
    ensures AlertsEnabled(s.config) && HasDefaultKeys(s.config) ==>
      (ok <==> transport(Request(s.config[BotTokenKey], s.config[ChatIdKey], msg, "HTML")) == Response(200))
  {
    AlertsEnabled(s.config) &&
    match BuildRequest(s.config, msg)
    case None => false
    case Some(req) => transport(req) == Response(200)
  }

  /** log_alert: one entry appended at the end. */
  function LogAlert(s: AppState, msg: string, timestamp: string): (r: AppState)
    ensures r.history == s.history + [Alert(timestamp, msg)]
    ensures r.config == s.config && r.status == s.status && r.attempts == s.attempts
      && r.requests == s.requests && r.detector == s.detector
  {
    s.(history := s.history + [Alert(timestamp, msg)])
  }

  /** send_alert: always logs; hands the message to the channel only when
      alerts are enabled; never touches the status. */
  function SendAlert(s: AppState, msg: string, timestamp: string): (r: AppState)
    ensures r.history == s.history + [Alert(timestamp, msg)]
    ensures r.status == s.status && r.config == s.config && r.detector == s.detector
    ensures r.attempts == s.attempts + (if AlertsEnabled(s.config) then [msg] else [])
    ensures r.requests == Send(s, msg).requests
  {
    var s1 := LogAlert(s, msg, timestamp);
    if AlertsEnabled(s1.config) then Send(s1, msg) else s1
  }

  /** update_device_status: nothing happens when the status is unchanged;
      otherwise the status is set, exactly one message is handed to the
      channel and exactly the same message is appended to the history. */
  function UpdateStatus(s: AppState, newStatus: Status, error: Option<string>,
                        messageTime: string, logTime: string): (r: AppState)
    ensures s.status == newStatus ==> r == s
    ensures s.status != newStatus ==>
      && r.status == newStatus
      && r.history == s.history + [Alert(logTime, StatusMessage(newStatus, messageTime, error))]
  {
    if s.status == newStatus then s
    else
      var msg := StatusMessage(newStatus, messageTime, error);
      var s1 := s.(status := newStatus);
      var s2 := Send(s1, msg);
      LogAlert(s2, msg, logTime)
  }

  /** A real transition hands the channel exactly the message it logs, once,
      and changes nothing else. */
  lemma UpdateStatusSendsOnce(s: AppState, newStatus: Status, error: Option<string>,
                              messageTime: string, logTime: string)
    requires s.status != newStatus
    ensures var r := UpdateStatus(s, newStatus, error, messageTime, logTime);
      var msg := r.history[|s.history|].message;
      && |r.history| == |s.history| + 1
      && r.history[..|s.history|] == s.history
      && r.attempts == s.attempts + [msg]
      && r.requests == Send(s, msg).requests
      && r.config == s.config && r.detector == s.detector
  {
    var r := UpdateStatus(s, newStatus, error, messageTime, logTime);
    assert r.history[..|s.history|] == s.history;
  }

  /** Repeating a status update is a no-op, whatever error and times the
      second call carries. */
  lemma UpdateStatusIdempotent(s: AppState, status: Status, e1: Option<string>, e2: Option<string>,
                               t1: string, t2: string, t3: string, t4: string)
    ensures var r := UpdateStatus(s, status, e1, t1, t2);
      UpdateStatus(r, status, e2, t3, t4) == r
  {
  }

  /** One call of update_device_status. */
  datatype StatusCall = StatusCall(status: Status, error: Option<string>, messageTime: string, logTime: string)

  /** A sequence of update_device_status calls. */
  function RunUpdates(s: AppState, calls: seq<StatusCall>): AppState
    decreases |calls|
  {
    if calls == [] then s
    else
      var c := calls[0];
      RunUpdates(UpdateStatus(s, c.status, c.error, c.messageTime, c.logTime), calls[1..])
  }

  /** How many calls change the status, starting from `from`. */
  function Transitions(from: Status, calls: seq<StatusCall>): nat
    decreases |calls|
  {
    if calls == [] then 0
    else (if calls[0].status != from then 1 else 0) + Transitions(calls[0].status, calls[1..])
  }

  /** The entries announce statuses that alternate, starting with the
      status other than `from`. */
  predicate Alternating(from: Status, h: seq<Alert>)
    decreases |h|
  {
    h == [] || (AnnouncedStatus(h[0].message) == Some(from.Flip()) && Alternating(from.Flip(), h[1..]))
  }

  /** Over any sequence of status updates the history grows by one entry
      per real transition, keeps its earlier entries, and the new entries
      alternate between online and offline: a status is never announced
      twice in a row. */
  lemma {:induction false} RunUpdatesAlternate(s: AppState, calls: seq<StatusCall>)
    ensures var r := RunUpdates(s, calls);
      && |r.history| == |s.history| + Transitions(s.status, calls)
      && r.history[..|s.history|] == s.history
      && Alternating(s.status, r.history[|s.history|..])
      && r.status == (if calls == [] then s.status else calls[|calls| - 1].status)
    decreases |calls|
  {
    if calls != [] {
      var c := calls[0];
      var s1 := UpdateStatus(s, c.status, c.error, c.messageTime, c.logTime);
      RunUpdatesAlternate(s1, calls[1..]);
      var r := RunUpdates(s1, calls[1..]);
      assert RunUpdates(s, calls) == r;
      var tail := r.history[|s1.history|..];
      if s.status == c.status {
        assert s1 == s;
      } else {
        assert c.status == s.status.Flip();
        var a := s1.history[|s.history|];
        StatusMessageAnnounces(c.status, c.messageTime, c.error);
        assert r.history[..|s1.history|] == s1.history;
        assert r.history[|s.history|..] == [a] + tail;
        assert ([a] + tail)[1..] == tail;
      }
      if calls[1..] != [] {
        assert calls[1..][|calls[1..]| - 1] == calls[|calls| - 1];
      }
    }
  }

  // ---------------------------------------------------------------------
  // The history display

  function Reverse<T>(s: seq<T>): (r: seq<T>)
    ensures |r| == |s| && forall i :: 0 <= i < |s| ==> r[i] == s[|s| - 1 - i]
  {
    if s == [] then [] else Reverse(s[1..]) + [s[0]]
  }

  const DisplayedAlerts: nat := 10

  /** `reversed(alert_history[-10:])`: the last ten entries, newest first. */
  function RecentAlerts(h: seq<Alert>): (r: seq<Alert>)
    ensures |r| == if |h| < DisplayedAlerts then |h| else DisplayedAlerts
    ensures forall i :: 0 <= i < |r| ==> r[i] == h[|h| - 1 - i]
  {
    Reverse(if |h| <= DisplayedAlerts then h else h[|h| - DisplayedAlerts..])
  }
}
