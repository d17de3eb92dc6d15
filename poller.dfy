/** One poll of the device (check_device_status): open the port, go online,
    read one line, check a non-empty reading for an anomaly; a serial error
    takes the device offline and any other error leaves the status alone. */
module Poller {
  import opened Wrappers
  import opened Config
  import opened Alerts
  import opened Reading

  /** What reading one line from the open port gives. */
  datatype ReadOutcome =
    | Line(text: string)              // readline and UTF-8 decoding succeed
    | ReadSerialError(error: string)  // readline raises a serial exception
    | DecodeError(error: string)      // the bytes are not valid UTF-8, or any
                                      // other non-serial error after the open

  /** What opening the port gives. */
  datatype PollOutcome =
    | OpenSerialError(error: string)  // the port cannot be opened
    | OpenOtherError(error: string)   // any other exception before the read
    | Opened(read: ReadOutcome)

  /** The anomaly check of a stripped reading `data`: the status, the
      configuration and the detector never change; a non-empty anomalous
      reading logs its anomaly alert and hands it to the channel when alerts
      are enabled; anything else changes nothing. */
  function CheckReading(s: AppState, data: string, now: string,
                        parse: string -> Option<real>, predict: real -> int): (r: AppState)
    ensures r.status == s.status && r.config == s.config && r.detector == s.detector
    ensures data != "" && DetectAnomaly(data, parse, predict).anomalous ==>
      && r.history == s.history + [Alert(now, AnomalyMessage(data))]
      && r.attempts == s.attempts + (if AlertsEnabled(s.config) then [AnomalyMessage(data)] else [])
      && r.requests == Send(s, AnomalyMessage(data)).requests
    ensures !(data != "" && DetectAnomaly(data, parse, predict).anomalous) ==> r == s
  {
    if data != "" && DetectAnomaly(data, parse, predict).anomalous
    then SendAlert(s, AnomalyMessage(data), now)
    else s
  }

  /** The state after one poll. Every clock reading inside the poll is
      `now`. */
  function Poll(s: AppState, outcome: PollOutcome, now: string,
                parse: string -> Option<real>, predict: real -> int): (r: AppState)
    ensures r.status == match outcome
      case OpenSerialError(_) => Offline
      case OpenOtherError(_) => s.status
      case Opened(ReadSerialError(_)) => Offline
      case Opened(_) => Online
  {
    match outcome
    case OpenSerialError(e) => UpdateStatus(s, Offline, Some(e), now, now)
    case OpenOtherError(_) => s
    case Opened(read) =>
      var s1 := UpdateStatus(s, Online, None, now, now);
      match read
      case ReadSerialError(e) => UpdateStatus(s1, Offline, Some(e), now, now)
      case DecodeError(_) => s1
      case Line(text) => CheckReading(s1, Strip(text), now, parse, predict)
  }

  /** A poll only appends to the history, at most two entries, and never
      changes the configuration or the detector. */
  lemma PollAppendsAtMostTwo(s: AppState, outcome: PollOutcome, now: string,
                             parse: string -> Option<real>, predict: real -> int)
    ensures var r := Poll(s, outcome, now, parse, predict);
      && |s.history| <= |r.history| <= |s.history| + 2
      && r.history[..|s.history|] == s.history
      && r.config == s.config && r.detector == s.detector
  {
    match outcome
    case OpenSerialError(e) =>
      StatusUpdateAppendsAtMostOne(s, Offline, Some(e), now);
    case OpenOtherError(_) =>
    case Opened(read) =>
      var s1 := UpdateStatus(s, Online, None, now, now);
      StatusUpdateAppendsAtMostOne(s, Online, None, now);
      match read {
        case ReadSerialError(e) =>
          StatusUpdateAppendsAtMostOne(s1, Offline, Some(e), now);
          var r := UpdateStatus(s1, Offline, Some(e), now, now);
          assert r.history[..|s.history|] == r.history[..|s1.history|][..|s.history|];
        case DecodeError(_) =>
        case Line(text) =>
          var r := CheckReading(s1, Strip(text), now, parse, predict);
          assert r.history[..|s.history|] == r.history[..|s1.history|][..|s.history|];
      }
  }

  /** One status update appends at most one entry and keeps the
      configuration and the detector. */
  lemma StatusUpdateAppendsAtMostOne(s: AppState, status: Status, error: Option<string>, now: string)
    ensures var r := UpdateStatus(s, status, error, now, now);
      && |s.history| <= |r.history| <= |s.history| + 1
      && r.history[..|s.history|] == s.history
      && r.config == s.config && r.detector == s.detector
  {
    if s.status != status {
      UpdateStatusSendsOnce(s, status, error, now, now);
    }
  }

  /** An anomaly alert never reads as a status announcement. */
  lemma AnomalyMessageAnnouncesNothing(data: string)
    ensures AnnouncedStatus(AnomalyMessage(data)) == None
  {
    var msg := AnomalyMessage(data);
    assert msg[0] == AnomalyPrefix[0];
  }

  /** The entries of a history that announce a status, in order. */
  function Announcements(h: seq<Alert>): (a: seq<Alert>)
    ensures |a| <= |h|
    ensures forall i :: 0 <= i < |a| ==> AnnouncedStatus(a[i].message).Some?
    decreases |h|
  {
    if h == [] then []
    else (if AnnouncedStatus(h[0].message).Some? then [h[0]] else []) + Announcements(h[1..])
  }

  lemma {:induction false} AnnouncementsAppend(h: seq<Alert>, g: seq<Alert>)
    ensures Announcements(h + g) == Announcements(h) + Announcements(g)
    decreases |h|
  {
    if h == [] {
      assert h + g == g;
    } else {
      var head := if AnnouncedStatus(h[0].message).Some? then [h[0]] else [];
      assert (h + g)[0] == h[0];
      assert (h + g)[1..] == h[1..] + g;
      AnnouncementsAppend(h[1..], g);
      assert Announcements(h + g) == head + Announcements(h[1..] + g);
    }
  }

  /** One entry appended: it is kept among the announcements exactly when it
      announces a status. */
  lemma AnnouncementsOne(a: Alert)
    ensures Announcements([a]) == if AnnouncedStatus(a.message).Some? then [a] else []
  {
    assert [a][1..] == [];
  }

  /** The announcements of the online transition a poll starts with. */
  lemma OnlineStepAlternates(s: AppState, now: string)
    ensures var s1 := UpdateStatus(s, Online, None, now, now);
      && s1.history == s.history + (if s.status == Online then [] else [Alert(now, StatusMessage(Online, now, None))])
      && s1.status == Online
      && Alternating(s.status, Announcements(s1.history[|s.history|..]))
  {
    var s1 := UpdateStatus(s, Online, None, now, now);
    if s.status == Offline {
      var a := Alert(now, StatusMessage(Online, now, None));
      StatusMessageAnnounces(Online, now, None);
      AnnouncementsOne(a);
      assert s1.history[|s.history|..] == [a];
      assert [a][1..] == [];
    } else {
      assert s1.history[|s.history|..] == [];
    }
  }

  /** The offline transition on a serial error, from a device that is
      online. */
  lemma OfflineStepAlternates(s: AppState, e: string, now: string)
    requires s.status == Online
    ensures var r := UpdateStatus(s, Offline, Some(e), now, now);
      && r.history == s.history + [Alert(now, StatusMessage(Offline, now, Some(e)))]
      && Alternating(Online, Announcements([Alert(now, StatusMessage(Offline, now, Some(e)))]))
  {
    var a := Alert(now, StatusMessage(Offline, now, Some(e)));
    var r := UpdateStatus(s, Offline, Some(e), now, now);
    assert r.history == r.history[..|s.history|] + [r.history[|s.history|]];
    StatusMessageAnnounces(Offline, now, Some(e));
    AnnouncementsOne(a);
    assert [a][1..] == [];
  }

  /** The reading after a successful open adds no announcement. */
  lemma ReadingAnnouncesNothing(s1: AppState, data: string, now: string,
                                parse: string -> Option<real>, predict: real -> int)
    ensures var r := CheckReading(s1, data, now, parse, predict);
      && |s1.history| <= |r.history| && r.history[..|s1.history|] == s1.history
      && Announcements(r.history[|s1.history|..]) == []
  {
    var r := CheckReading(s1, data, now, parse, predict);
    if data != "" && DetectAnomaly(data, parse, predict).anomalous {
      var a := Alert(now, AnomalyMessage(data));
      AnomalyMessageAnnouncesNothing(data);
      AnnouncementsOne(a);
      assert r.history[|s1.history|..] == [a];
    } else {
      assert r.history[|s1.history|..] == [];
    }
  }

  /** A serial error while reading, after a successful open. */
  lemma ReadErrorAnnouncementsAlternate(s: AppState, e: string, now: string,
                                        parse: string -> Option<real>, predict: real -> int)
    ensures var r := Poll(s, Opened(ReadSerialError(e)), now, parse, predict);
      && |s.history| <= |r.history|
      && Alternating(s.status, Announcements(r.history[|s.history|..]))
  {
    var r := Poll(s, Opened(ReadSerialError(e)), now, parse, predict);
    var s1 := UpdateStatus(s, Online, None, now, now);
    OnlineStepAlternates(s, now);
    OfflineStepAlternates(s1, e, now);
    var added := s1.history[|s.history|..];
    var off := [Alert(now, StatusMessage(Offline, now, Some(e)))];
    assert r.history[|s.history|..] == added + off;
    AnnouncementsAppend(added, off);
    if s.status == Online {
      assert added == [];
    } else {
      var on := Alert(now, StatusMessage(Online, now, None));
      StatusMessageAnnounces(Online, now, None);
      AnnouncementsOne(on);
      assert added == [on];
      assert ([on] + Announcements(off))[1..] == Announcements(off);
    }
  }

  /** The online transition followed by the check of a reading. */
  lemma ReadingAfterOpenAlternates(s: AppState, data: string, now: string,
                                   parse: string -> Option<real>, predict: real -> int)
    ensures var r := CheckReading(UpdateStatus(s, Online, None, now, now), data, now, parse, predict);
      && |s.history| <= |r.history|
      && Alternating(s.status, Announcements(r.history[|s.history|..]))
  {
    var s1 := UpdateStatus(s, Online, None, now, now);
    var r := CheckReading(s1, data, now, parse, predict);
    OnlineStepAlternates(s, now);
    ReadingAnnouncesNothing(s1, data, now, parse, predict);
    var added := s1.history[|s.history|..];
    var rest := r.history[|s1.history|..];
    assert r.history[|s.history|..] == added + rest;
    AnnouncementsAppend(added, rest);
    assert Announcements(added) + [] == Announcements(added);
  }

  /** Status announcements and anomaly alerts share the history, but the
      anomaly alerts never break the alternation: the announcements a poll
      appends alternate between online and offline, starting from a change
      of the status the poll began with. */
  lemma PollAnnouncementsAlternate(s: AppState, outcome: PollOutcome, now: string,
                                   parse: string -> Option<real>, predict: real -> int)
    ensures var r := Poll(s, outcome, now, parse, predict);
      && |s.history| <= |r.history|
      && Alternating(s.status, Announcements(r.history[|s.history|..]))
  {
    var r := Poll(s, outcome, now, parse, predict);
    match outcome
    case OpenSerialError(e) =>
      if s.status == Online {
        OfflineStepAlternates(s, e, now);
        assert r.history[|s.history|..] == [Alert(now, StatusMessage(Offline, now, Some(e)))];
      } else {
        assert r.history[|s.history|..] == [];
      }
    case OpenOtherError(e) =>
      assert r.history[|s.history|..] == [];
    case Opened(ReadSerialError(e)) =>
      ReadErrorAnnouncementsAlternate(s, e, now, parse, predict);
    case Opened(DecodeError(_)) =>
      OnlineStepAlternates(s, now);
    case Opened(Line(text)) =>
      ReadingAfterOpenAlternates(s, Strip(text), now, parse, predict);
  }

  /** A port that cannot be opened takes the device offline with the
      error's text, announcing it only if the device was online. */
  lemma PollOpenFailure(s: AppState, e: string, now: string,
                        parse: string -> Option<real>, predict: real -> int)
    ensures var r := Poll(s, OpenSerialError(e), now, parse, predict);
      && r.status == Offline
      && (s.status == Offline ==> r == s)
      && (s.status == Online ==>
            r.history == s.history + [Alert(now, StatusMessage(Offline, now, Some(e)))])
  {
    var r := Poll(s, OpenSerialError(e), now, parse, predict);
    if s.status == Online {
      assert r.history == r.history[..|s.history|] + [r.history[|s.history|]];
    }
  }

  /** Any other error before the read leaves the whole state as it was. */
  lemma PollOtherErrorChangesNothing(s: AppState, e: string, now: string,
                                     parse: string -> Option<real>, predict: real -> int)
    ensures Poll(s, OpenOtherError(e), now, parse, predict) == s
  {
  }

  /** Opening the port drives the status online before the read: a decode
      error after the open leaves the device online, with only the online
      transition (if any) recorded. */
  lemma PollDecodeErrorStaysOnline(s: AppState, e: string, now: string,
                                   parse: string -> Option<real>, predict: real -> int)
    ensures var r := Poll(s, Opened(DecodeError(e)), now, parse, predict);
      && r.status == Online
      && r == UpdateStatus(s, Online, None, now, now)
      && (s.status == Online ==> r == s)
  {
  }

  /** A serial error during the read, after a successful open from the
      offline state, records two transitions in order: online, then
      offline with the error. */
  lemma PollReadErrorAfterOpen(s: AppState, e: string, now: string,
                               parse: string -> Option<real>, predict: real -> int)
    requires s.status == Offline
    ensures var r := Poll(s, Opened(ReadSerialError(e)), now, parse, predict);
      && r.status == Offline
      && r.history == s.history + [Alert(now, StatusMessage(Online, now, None)),
                                   Alert(now, StatusMessage(Offline, now, Some(e)))]
  {
    var s1 := UpdateStatus(s, Online, None, now, now);
    var r := UpdateStatus(s1, Offline, Some(e), now, now);
    assert s1.history == s.history + [s1.history[|s.history|]];
    assert r.history == s1.history + [r.history[|s1.history|]];
  }

  /** A blank line triggers no anomaly check: the poll does only the online
      transition. */
  lemma PollBlankReading(s: AppState, text: string, now: string,
                         parse: string -> Option<real>, predict: real -> int)
    requires forall k :: 0 <= k < |text| ==> IsSpace(text[k])
    ensures Poll(s, Opened(Line(text)), now, parse, predict) == UpdateStatus(s, Online, None, now, now)
  {
    StripEmptyIffBlank(text);
  }

  /** A non-empty reading adds, after the online transition, exactly one
      entry when it is judged anomalous (the anomaly alert carrying the
      stripped reading) and none otherwise. */
  lemma PollReading(s: AppState, text: string, now: string,
                    parse: string -> Option<real>, predict: real -> int)
    requires Strip(text) != ""
    ensures var s1 := UpdateStatus(s, Online, None, now, now);
      var r := Poll(s, Opened(Line(text)), now, parse, predict);
      && r.status == Online
      && (DetectAnomaly(Strip(text), parse, predict).anomalous ==>
            r.history == s1.history + [Alert(now, AnomalyMessage(Strip(text)))])
      && (!DetectAnomaly(Strip(text), parse, predict).anomalous ==> r == s1)
  {
  }

  /** A non-blank reading that is not a number always raises the anomaly
      alert. */
  lemma PollUnparseableReading(s: AppState, text: string, now: string,
                               parse: string -> Option<real>, predict: real -> int)
    requires Strip(text) != "" && parse(Strip(text)).None?
    ensures var r := Poll(s, Opened(Line(text)), now, parse, predict);
      r.history[|r.history| - 1] == Alert(now, AnomalyMessage(Strip(text)))
  {
    PollReading(s, text, now, parse, predict);
  }

  /** Anomaly alerts are never de-duplicated: two polls that read the same
      anomalous value both add its alert. */
  lemma RepeatedAnomalyNotSuppressed(s: AppState, text: string, t1: string, t2: string,
                                     parse: string -> Option<real>, predict: real -> int)
    requires Strip(text) != "" && DetectAnomaly(Strip(text), parse, predict).anomalous
    ensures var r1 := Poll(s, Opened(Line(text)), t1, parse, predict);
      var r2 := Poll(r1, Opened(Line(text)), t2, parse, predict);
      r2.history == r1.history + [Alert(t2, AnomalyMessage(Strip(text)))]
  {
    var r1 := Poll(s, Opened(Line(text)), t1, parse, predict);
    PollReading(r1, text, t2, parse, predict);
    assert UpdateStatus(r1, Online, None, t2, t2) == r1;
  }
}
