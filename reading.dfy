/** A reading from the device: whitespace stripping as Python's
    `str.strip()` does it, the anomaly gate of detect_anomaly and the
    anomaly alert text. */
module Reading {
  import opened Wrappers

  /** The characters Python's `str.strip()` removes by default. */
  predicate IsSpace(c: char) {
    || c == ' ' || c == '\t' || c == '\n' || c == '\r'
    || c == '\U{0B}' || c == '\U{0C}'
    || ('\U{1C}' <= c <= '\U{1F}')
    || c == '\U{85}' || c == '\U{A0}' || c == '\U{1680}'
    || ('\U{2000}' <= c <= '\U{200A}')
    || c == '\U{2028}' || c == '\U{2029}' || c == '\U{202F}'
    || c == '\U{205F}' || c == '\U{3000}'
  }

  /** Drops leading whitespace: the result is a suffix of `s`, everything
      dropped is whitespace, and the result does not start with whitespace. */
  function StripLeading(s: string): (r: string)
    ensures |r| <= |s| && r == s[|s| - |r|..]
    ensures forall k :: 0 <= k < |s| - |r| ==> IsSpace(s[k])
    ensures r != [] ==> !IsSpace(r[0])
    decreases |s|
  {
    if s != [] && IsSpace(s[0]) then StripLeading(s[1..]) else s
  }

  /** Drops trailing whitespace: the result is a prefix of `s`, everything
      dropped is whitespace, and the result does not end with whitespace. */
  function StripTrailing(s: string): (r: string)
    ensures |r| <= |s| && r == s[..|r|]
    ensures forall k :: |r| <= k < |s| ==> IsSpace(s[k])
    ensures r != [] ==> !IsSpace(r[|r| - 1])
    decreases |s|
  {
    if s != [] && IsSpace(s[|s| - 1]) then StripTrailing(s[..|s| - 1]) else s
  }

  /** `r` stands in `s` at offset `i` with only whitespace before and after
      it. */
  predicate TrimmedAt(s: string, r: string, i: int) {
    && 0 <= i <= |s| - |r| && r == s[i..i + |r|]
    && (forall k :: 0 <= k < i ==> IsSpace(s[k]))
    && (forall k :: i + |r| <= k < |s| ==> IsSpace(s[k]))
  }

  /** `str.strip()`: the result is a slice of `s` with only whitespace
      before and after it, and it neither starts nor ends with whitespace. */
  function Strip(s: string): (r: string)
    ensures |r| <= |s|
    ensures exists i :: TrimmedAt(s, r, i)
    ensures r != [] ==> !IsSpace(r[0]) && !IsSpace(r[|r| - 1])
  {
    var l := StripLeading(s);
    var r := StripTrailing(l);
    TrimmedSlice(s, l, r);
    r
  }

  /** Dropping a whitespace prefix and then a whitespace suffix leaves a
      slice with only whitespace around it. */
  lemma TrimmedSlice(s: string, l: string, r: string)
    requires |l| <= |s| && l == s[|s| - |l|..]
    requires forall k :: 0 <= k < |s| - |l| ==> IsSpace(s[k])
    requires |r| <= |l| && r == l[..|r|]
    requires forall k :: |r| <= k < |l| ==> IsSpace(l[k])
    ensures TrimmedAt(s, r, |s| - |l|)
  {
    var i := |s| - |l|;
    assert s[i..][..|r|] == s[i..i + |r|];
    forall k | i + |r| <= k < |s|
      ensures IsSpace(s[k])
    {
      assert IsSpace(l[k - i]);
    }
  }

  /** A stripped line is empty exactly when the line is all whitespace. */
  lemma StripEmptyIffBlank(s: string)
    ensures Strip(s) == [] <==> forall k :: 0 <= k < |s| ==> IsSpace(s[k])
  {
    var l := StripLeading(s);
    if Strip(s) == [] {
      assert |l| == 0;
    }
  }

  /** Stripping twice strips nothing more. */
  lemma StripIdempotent(s: string)
    ensures Strip(Strip(s)) == Strip(s)
  {
    var r := Strip(s);
    assert StripLeading(r) == r;
    assert StripTrailing(r) == r;
  }

  /** The verdict of detect_anomaly and whether it reported the reading as
      an invalid data point. */
  datatype Verdict = Verdict(anomalous: bool, invalidInput: bool)

  /** The outlier label the model's `predict` gives. */
  const OutlierLabel: int := -1

  /** detect_anomaly. `parse` stands for `float()` (`None` when it raises),
      `predict` for the fitted model's label of one value. A reading that is
      not a number is anomalous and reported as invalid. */
  function DetectAnomaly(dataPoint: string, parse: string -> Option<real>, predict: real -> int): (v: Verdict)
    ensures v.invalidInput <==> parse(dataPoint).None?
    ensures parse(dataPoint).None? ==> v.anomalous
    ensures parse(dataPoint).Some? ==> (v.anomalous <==> predict(parse(dataPoint).value) == OutlierLabel)
  {
    match parse(dataPoint)
    case None => Verdict(true, true)
    case Some(x) => Verdict(predict(x) == OutlierLabel, false)
  }

  const AnomalyPrefix: string := "⚠️ Anomaly detected: Reading value "

  /** The alert text for an anomalous reading, which carries the reading. */
  function AnomalyMessage(data: string): (msg: string)
    ensures |msg| == |AnomalyPrefix| + |data|
    ensures msg[..|AnomalyPrefix|] == AnomalyPrefix && msg[|AnomalyPrefix|..] == data
  {
    AnomalyPrefix + data
  }
}
