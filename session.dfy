/** The monitor's session state (`st.session_state`) as an object whose
    methods update it step by step, as the script's functions do. Each
    method is proved to leave the state its specification function in
    Alerts, Poller or Config describes. */
module Session {
  import opened Wrappers
  import opened Config
  import opened Alerts
  import opened Reading
  import opened Poller

  class SessionState {
    var config: Record
    var lastKnownStatus: Status
    var alertHistory: seq<Alert>
    var attempts: seq<string>
    var requests: seq<Request>
    var detector: Detector

    /** The configuration always holds every default key. */
    ghost predicate Valid()
      reads this
    {
      HasDefaultKeys(config)
    }

    /** The state as a value. */
    function State(): AppState
      reads this
    {
      AppState(config, lastKnownStatus, alertHistory, attempts, requests, detector)
    }

    /** Start-up: load the configuration, start with an empty history, fit
        the detector once, and start offline. */
    constructor (file: Option<Record>)
      ensures Valid()
      ensures State() == InitialState(file)
    {
      var loaded := LoadConfig(file);
      config := loaded;
      alertHistory := [];
      detector := Detector(loaded[ThresholdKey], 1);
      lastKnownStatus := Offline;
      attempts, requests := [], [];
    }

    /** send_telegram_message. */
    method SendTelegramMessage(message: string, transport: Request -> HttpOutcome) returns (ok: bool)
      requires Valid()
      modifies this
      ensures Valid()
      ensures State() == Send(old(State()), message)
      ensures ok == Delivered(old(State()), message, transport)
    {
      attempts := attempts + [message];
      if !AlertsEnabled(config) {
        return false;
      }
      if BotTokenKey !in config || ChatIdKey !in config {
        // the missing key raises inside the try block and is caught
        return false;
      }
      var request := Request(config[BotTokenKey], config[ChatIdKey], message, "HTML");
      requests := requests + [request];
      var response := transport(request);
      ok := response == Response(200);
    }

    /** log_alert. */
    method LogAlert(message: string, timestamp: string)
      requires Valid()
      modifies this
      ensures Valid()
      ensures State() == Alerts.LogAlert(old(State()), message, timestamp)
    {
      alertHistory := alertHistory + [Alert(timestamp, message)];
    }

    /** send_alert. */
    method SendAlert(message: string, timestamp: string, transport: Request -> HttpOutcome)
      requires Valid()
      modifies this
      ensures Valid()
      ensures State() == Alerts.SendAlert(old(State()), message, timestamp)
    {
      LogAlert(message, timestamp);
      if AlertsEnabled(config) {
        var delivered := SendTelegramMessage(message, transport);
      }
    }

    /** update_device_status; `messageTime` and `logTime` are the two clock
        readings it takes, for the message and for the history entry. */
    method UpdateDeviceStatus(newStatus: Status, errorMessage: Option<string>,
                              messageTime: string, logTime: string,
                              transport: Request -> HttpOutcome)
      requires Valid()
      modifies this
      ensures Valid()
      ensures State() == UpdateStatus(old(State()), newStatus, errorMessage, messageTime, logTime)
    {
      if lastKnownStatus != newStatus {
        var statusMsg := StatusMessage(newStatus, messageTime, errorMessage);
        lastKnownStatus := newStatus;
        var delivered := SendTelegramMessage(statusMsg, transport);
        LogAlert(statusMsg, logTime);
      }
    }

    /** The "Test Alert" button. */
    method TestAlert(timestamp: string, transport: Request -> HttpOutcome)
      requires Valid()
      modifies this
      ensures Valid()
      ensures State() == Alerts.SendAlert(old(State()), TestAlertMessage, timestamp)
    {
      SendAlert(TestAlertMessage, timestamp, transport);
    }

    /** check_device_status for one poll outcome. */
    method CheckDeviceStatus(outcome: PollOutcome, now: string,
                             parse: string -> Option<real>, predict: real -> int,
                             transport: Request -> HttpOutcome)
      requires Valid()
      modifies this
      ensures Valid()
      ensures State() == Poll(old(State()), outcome, now, parse, predict)
    {
      match outcome
      case OpenSerialError(error) =>
        UpdateDeviceStatus(Offline, Some(error), now, now, transport);
      case OpenOtherError(_) =>
      case Opened(read) =>
        UpdateDeviceStatus(Online, None, now, now, transport);
        match read
        case ReadSerialError(error) =>
          UpdateDeviceStatus(Offline, Some(error), now, now, transport);
        case DecodeError(_) =>
        case Line(text) =>
          var data := Strip(text);
          if data != "" && DetectAnomaly(data, parse, predict).anomalous {
            SendAlert(AnomalyMessage(data), now, transport);
          }
    }

    /** The "Save Configuration" handler. `written` is the record written to
        the file; `refit` says whether the detector was refitted, decided by
        comparing the form's threshold with the one held before the save. */
    method SaveConfiguration(form: Form) returns (written: Record, refit: bool)
      requires Valid()
      modifies this
      ensures Valid()
      ensures written == NewConfig(form, old(lastKnownStatus).Name())
      ensures config == UpdateConfig(old(config), form, old(lastKnownStatus).Name())
      ensures refit == ThresholdChanged(old(config), form)
      ensures detector == if refit then Detector(VReal(form.anomalyThreshold), old(detector).fits + 1)
                          else old(detector)
      ensures lastKnownStatus == old(lastKnownStatus) && alertHistory == old(alertHistory)
      ensures attempts == old(attempts) && requests == old(requests)
    {
      written := NewConfig(form, lastKnownStatus.Name());
      refit := ThresholdChanged(config, form);
      config := UpdateConfig(config, form, lastKnownStatus.Name());
      if refit {
        detector := Detector(VReal(form.anomalyThreshold), detector.fits + 1);
      }
    }
  }
}
