# System monitor: status/alert state machine

A model of the core of `system-monitor.py`, a dashboard that polls a
serial-attached device, flags anomalous readings and sends online/offline
and anomaly alerts to a Telegram bot. The model covers:

- the configuration store: JSON values, `DEFAULT_CONFIG`, the merge done by
  `load_config`, and the record the "Save Configuration" handler builds and
  merges into the session (module `Config`, `config.dfy`);
- the status/alert state machine: the alert channel's enable gate and
  result (`send_telegram_message`), `log_alert`, `send_alert` and
  `update_device_status`, as functions on the session state `AppState`
  (module `Alerts`, `alerts.dfy`);
- the reading: Python's `str.strip()`, the parse-failure gate of
  `detect_anomaly`, the anomaly alert text (module `Reading`, `reading.dfy`);
- one poll, `check_device_status`, over an abstract outcome of opening the
  port and reading one line (module `Poller`, `poller.dfy`);
- the session object itself (`st.session_state`): class
  `Session.SessionState`, whose fields are the configuration, the last known
  status, the alert history, the messages handed to the alert channel, the
  HTTP requests it issued and the fitted detector. Its methods update those
  fields step by step, the way the script's functions do. Each method is
  proved to leave exactly the state that the matching function in `Alerts`,
  `Poller` or `Config` describes (`session.dfy`).

Foreign effects are parameters:
- the HTTP transport is `transport: Request -> HttpOutcome`;
- `float()` is `parse: string -> Option<real>`;
- the fitted model's `predict` is `predict: real -> int`, where `-1` means outlier;
- every `datetime.now()` reading is a timestamp argument;
- the configuration file is an `Option<Record>`, where `None` means the file was not found;
- the result of opening the port and reading from it is a `PollOutcome`.

The model follows the code in these places:
- `update_device_status` sends the message before it logs it (lines 82 and 85).
- The session always starts `offline` (lines 44-45). The saved `last_known_status` is written back on save but never read at start-up.

One place departs from the code on purpose. As written, the refit after a save can never happen. `Config.RefitAsWritten` models that test, and `Session.SessionState.SaveConfiguration` uses the intended one (see "Left out" and "Findings").

## Model

| member | source | states |
|---|---|---|
| `Config.Get` | system-monitor.py:50 | `config.get(key, default)`: the stored value when the key is present, the default otherwise (lines 50 and 98) |
| `Config.SameNumber` | system-monitor.py:158 | Python's `==` between a stored value and a float: numbers compare by value, booleans count as 0 and 1, anything else is unequal |
| `Config.Truthy` | system-monitor.py:50 | Python's truth value of a configuration value, as `if` and `not` read it |
| `Config.FalsyValues` | system-monitor.py:50 | a value is false in a condition exactly when it is `None`, `False`, `0`, `0.0`, `""`, `[]` or `{}` |
| `Config.AlertsEnabled` | system-monitor.py:50 | the alert gate `config.get('enable_telegram_alerts', False)` read as a condition |
| `Config.AlertsGate` | system-monitor.py:98 | alerts are enabled exactly when the flag is present and truthy; in both directions |
| `Config.MissingFlagDisablesAlerts` | system-monitor.py:50 | a configuration without `enable_telegram_alerts` has alerts disabled |
| `Config.LoadConfig` | system-monitor.py:23-31 | a missing file gives exactly `DEFAULT_CONFIG`; otherwise the keys are the default keys plus the file's keys, every file key takes the file's value and every other default key keeps its default; the result always holds every default key |
| `Config.LoadCompleteRecord` | system-monitor.py:23-31 | loading a record that already holds every default key gives that record back |
| `Config.LoadIdempotent` | system-monitor.py:23-31 | loading the result of a load changes nothing |
| `Config.NewConfig` | system-monitor.py:142-151 | the saved record has exactly the eight default keys |
| `Config.SavedCredentials` | system-monitor.py:142-151 | the saved enable flag reads back as the checkbox; with alerts disabled the token and chat id are saved empty |
| `Config.SaveThenLoad` | system-monitor.py:142-154 | the file written by a save, loaded at the next start, gives exactly the saved record |
| `Config.UpdateConfig` | system-monitor.py:152 | `config.update(new_config)` keeps every key of the session's configuration, adds the default keys, keeps the values of keys outside the form, gives each of the eight form keys the value of the saved record (the threshold is the form's), and the session's alert gate is the checkbox from then on |
| `Config.RefitAsWritten` | system-monitor.py:158 | the refit test as written: the threshold read back from the configuration after the update differs from the form's |
| `Config.ThresholdChanged` | system-monitor.py:158 | the refit test as intended: the threshold the configuration held before the save differs from the form's, compared as Python compares numbers |
| `Config.AsWrittenNeverRefits` | system-monitor.py:152-158 | the refit test as written (after the update) is false for every configuration and form |
| `Config.AsWrittenMissesThresholdChange` | system-monitor.py:157-161 | saving 0.2 over the default 0.1: the intended test refits, the test as written does not |
| `Config.RefitOnChangeOnly` | system-monitor.py:157-161 | with the intended test, a save that keeps the threshold does not refit (Python's `0 == 0.0` included), and saving the same form twice refits at most once |
| `Alerts.InitialState` | system-monitor.py:34-45 | the session starts with the loaded configuration, an empty history, one detector fit with the configured threshold, and status offline whatever the file says |
| `Alerts.Status.Name` | system-monitor.py:71 | a status's name is `'online'` or `'offline'` |
| `Alerts.Status.Flip` | system-monitor.py:68 | a change of a two-valued status always goes to the other status |
| `Alerts.HasError` | system-monitor.py:75 | `if error_message:`: an error is given and is not the empty string |
| `Alerts.StatusMessage` | system-monitor.py:69-76 | the message of a transition opens with that status's header, the timestamp label and the timestamp |
| `Alerts.StatusMessageText` | system-monitor.py:71-76 | the online message is the header and timestamp only, whatever error is given; the offline message gets `"\nError: <err>"` exactly when the error is present and non-empty |
| `Alerts.StatusMessageAnnounces` | system-monitor.py:71-74 | every status message announces, by its header, the status it was built for |
| `Alerts.StatusMessageTimestamp` | system-monitor.py:69-76 | the timestamp stands right after the header and the label in every status message |
| `Alerts.BuildRequest` | system-monitor.py:53-59 | a request is built exactly when the token and the chat id are present, and carries them, the message text and parse mode `HTML` |
| `Alerts.Send` | system-monitor.py:48-60 | handing a message to the channel changes only the attempts and the requests; no request is made when alerts are disabled; with alerts enabled and a complete configuration exactly one request with the configured token and chat id is made |
| `Alerts.Delivered` | system-monitor.py:48-64 | the channel reports success only when alerts are enabled, a request was made and its response status is exactly 200; an exception or any other status is failure |
| `Alerts.LogAlert` | system-monitor.py:87-93 | exactly one entry with the given timestamp and message is appended; nothing else changes |
| `Alerts.SendAlert` | system-monitor.py:95-99 | always appends exactly one entry with the message; hands it to the channel only when alerts are enabled; never changes the status; issues the same requests as an unconditional send |
| `Alerts.UpdateStatus` | system-monitor.py:66-85 | an unchanged status changes nothing; a change sets the new status and appends exactly one entry holding that transition's message |
| `Alerts.UpdateStatusSendsOnce` | system-monitor.py:78-85 | on a change, earlier entries are kept, the channel is handed exactly the logged message once, and the configuration and detector stay as they were |
| `Alerts.UpdateStatusIdempotent` | system-monitor.py:68 | a repeated update to the same status is a no-op, whatever error and timestamps it carries |
| `Alerts.RunUpdatesAlternate` | system-monitor.py:66-85 | over any sequence of status updates the history grows by one entry per real transition, keeps earlier entries, and the new entries alternate online/offline, so no status is announced twice in a row |
| `Alerts.Reverse` | system-monitor.py:206 | `reversed`: same length, entry `i` is entry `len - 1 - i` of the input |
| `Alerts.RecentAlerts` | system-monitor.py:205-207 | the displayed alerts are the last ten (or all, when fewer), newest first |
| `Reading.IsSpace` | system-monitor.py:186 | the characters `str.strip()` removes: the ASCII whitespace and separator controls and the Unicode whitespace characters |
| `Reading.StripLeading` | system-monitor.py:186 | drops exactly a whitespace prefix and leaves a result that does not start with whitespace |
| `Reading.StripTrailing` | system-monitor.py:186 | drops exactly a whitespace suffix and leaves a result that does not end with whitespace |
| `Reading.Strip` | system-monitor.py:186 | the stripped reading is a slice of the line with only whitespace before and after it, and it neither starts nor ends with whitespace |
| `Reading.StripEmptyIffBlank` | system-monitor.py:186-187 | the stripped reading is empty exactly when the line is all whitespace |
| `Reading.StripIdempotent` | system-monitor.py:186 | stripping a stripped reading changes nothing |
| `Reading.DetectAnomaly` | system-monitor.py:102-109 | a reading that does not parse is anomalous and reported invalid; a parsed reading is anomalous exactly when the model labels it `-1` |
| `Reading.AnomalyMessage` | system-monitor.py:191 | the anomaly alert starts with the fixed prefix `⚠️ Anomaly detected: Reading value ` and the rest is exactly the reading |
| `Poller.CheckReading` | system-monitor.py:187-193 | the reading check never changes the status, the configuration or the detector; a non-empty anomalous reading appends exactly its anomaly alert to the history and hands it to the channel only when alerts are enabled, issuing exactly the requests an unconditional send would; an empty or normal reading changes nothing |
| `Poller.Poll` | system-monitor.py:172-201 | after a poll the status is offline on a serial error (opening or reading), unchanged on any other error before the read, and online once the port opened otherwise |
| `Poller.StatusUpdateAppendsAtMostOne` | system-monitor.py:66-85 | one status update appends at most one entry and keeps the configuration and the detector |
| `Poller.PollAppendsAtMostTwo` | system-monitor.py:172-201 | a poll only appends to the history, at most two entries, and keeps the configuration and the detector |
| `Poller.AnomalyMessageAnnouncesNothing` | system-monitor.py:191 | an anomaly alert never reads as an online or offline announcement |
| `Poller.Announcements` | system-monitor.py:93 | a view, used in proofs, of the history that line 93 appends to: the entries that announce a status, in order (the order is given by its definition; its contract says only that there are no more of them than entries and that each announces a status) |
| `Poller.PollAnnouncementsAlternate` | system-monitor.py:172-201 | with anomaly alerts mixed into the history, the status announcements a poll appends still alternate online/offline, starting from a change of the status the poll began with |
| `Poller.PollOpenFailure` | system-monitor.py:195-198 | a port that cannot be opened takes the device offline, appending the offline message with the error text only when it was online |
| `Poller.PollOtherErrorChangesNothing` | system-monitor.py:200-201 | any other exception before the read leaves the whole state unchanged |
| `Poller.PollDecodeErrorStaysOnline` | system-monitor.py:174-201 | a decode error after opening leaves the device online, with only the online transition recorded |
| `Poller.PollReadErrorAfterOpen` | system-monitor.py:175-198 | from offline, a serial error during the read records the online and then the offline transition, in that order |
| `Poller.PollBlankReading` | system-monitor.py:186-187 | a blank line runs no anomaly check: the poll is exactly the online transition |
| `Poller.PollReading` | system-monitor.py:186-193 | a non-empty reading adds exactly one entry when judged anomalous, the anomaly message with the stripped reading, and none otherwise |
| `Poller.PollUnparseableReading` | system-monitor.py:102-109 | a non-blank reading that is not a number always ends the history with its anomaly alert |
| `Poller.RepeatedAnomalyNotSuppressed` | system-monitor.py:190-193 | two polls of the same anomalous reading both add its alert: anomalies are not de-duplicated |
| `Session.SessionState.constructor` | system-monitor.py:34-45 | start-up state is `InitialState` of the file |
| `Session.SessionState.SendTelegramMessage` | system-monitor.py:48-64 | the new state is `Send` of the old one and the result is `Delivered` |
| `Session.SessionState.LogAlert` | system-monitor.py:87-93 | the new state is `LogAlert` of the old one |
| `Session.SessionState.SendAlert` | system-monitor.py:95-99 | the new state is `SendAlert` of the old one |
| `Session.SessionState.UpdateDeviceStatus` | system-monitor.py:66-85 | the new state is `UpdateStatus` of the old one |
| `Session.SessionState.TestAlert` | system-monitor.py:167-170 | the "Test Alert" button is `send_alert` of the fixed test message |
| `Session.SessionState.CheckDeviceStatus` | system-monitor.py:172-201 | the new state is `Poll` of the old one |
| `Session.SessionState.SaveConfiguration` | system-monitor.py:141-161 | returns the saved record, merges it into the configuration, refits the detector (a new instance with the form's threshold) exactly when the threshold changed, and leaves status, history and channel alone |

## Left out

- Streamlit rendering is not modelled: the sidebar widgets, `st.success`, `st.error`, `st.warning`, `st.metric`, `st.info` and the status line at lines 211-214. Of the history display (lines 204-209) only the slice-and-reverse is kept, as `RecentAlerts`.
- The error messages shown for a failed send (line 63) and for an invalid data point (line 108) are not recorded. `DetectAnomaly` returns the invalid-input flag instead.
- The serial port is replaced by `PollOutcome`. The 1-second timeout and the closing of the port on leaving the `with` block are not modelled.
- `float()` and the scikit-learn model are the `parse` and `predict` parameters. Floats are exact reals, so NaN and infinities are not modelled. The random baseline fit is not modelled: the detector is only its contamination value and a fit count.
- `predict` is a parameter independent of the `detector` field, so nothing links a refit to the verdicts of later polls.
- A failed fit is not modelled. IsolationForest accepts a contamination only in (0, 0.5], but the slider at line 137 allows 0.0 to 1.0. Saving a value outside that range makes the next start-up raise at line 43 and leaves an unfitted model, so `detect_anomaly` then flags every reading. Under the intended refit the same value would raise at line 161. `InitialState` and `SaveConfiguration` always produce a fitted detector (`fits == 1`, `fits + 1`).
- `requests.get` is the `transport` parameter. A `Request` holds the token that would be put into the URL together with the query parameters. The URL string itself is not built.
- JSON file I/O is not modelled. A file whose top-level value is not an object raises at line 29, which is not modelled. Neither is an unreadable or malformed file, whose error propagates.
- `datetime.now` and `strftime` are not modelled: timestamps are arguments.
- The `time.sleep` / `st.experimental_rerun` loop (lines 216-220) is not modelled; one call is one poll.
- Poller.Poll: every clock reading inside one poll is the single `now` argument. The source reads the clock separately for each message (line 69) and each history entry (line 90). `UpdateStatus` and `UpdateDeviceStatus` take those two readings separately.
- The status is the enum `Status`. The source stores a string, but it only ever assigns `'online'` or `'offline'`.
- The sidebar's widget values are taken at the types their defaults have: the baud rate and the interval as integers, the threshold as a float.
- The default bot token at line 16 is a credential. It is kept as the named constant `DefaultBotToken` with a placeholder text, since no property depends on its characters.
- Session.SessionState.SaveConfiguration: refits by the corrected test (threshold compared before the update), not by the test as written, which never refits (see Findings). This is the one place where the model departs from the code on purpose; the test as written is `Config.RefitAsWritten`.
- Apart from `RepeatedAnomalyNotSuppressed`, which chains two polls of the same reading, polls are covered one at a time; no lemma covers an arbitrary sequence of polls.

## Findings

| source | as written | input that shows it | evidently intended | confidence | as-written member | corrected member |
|---|---|---|---|---|---|---|
| system-monitor.py:152-158 | `config.update(new_config)` runs before `anomaly_threshold != config['anomaly_threshold']`, so the form's threshold is compared with itself and the detector is never refitted | configuration threshold 0.1, form threshold 0.2 | refit when the saved threshold differs from the one held before the save | high; not executed | `Config.AsWrittenNeverRefits` | `Config.RefitOnChangeOnly` |
