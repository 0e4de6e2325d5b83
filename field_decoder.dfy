/**
 * The field accessors of JV-Data records (class `JVDataParser`): total
 * slice-and-trim readers over a byte buffer addressed with 1-based offsets,
 * as the JV-Data record layouts number their bytes.
 */
module FieldDecoder {
  import opened Wrappers
  import opened PyText

  /** `mid_b2s(data, start, length)`: bytes `start` to `start + length - 1`
      (1-based) as text, surrounding whitespace stripped. A read past the end
      yields the part that exists, possibly nothing; it never fails. */
  function MidB2S(data: Bytes, start: int, length: int): (r: string)
    ensures IsStripped(r)
    ensures 1 <= start && 0 <= length ==> |r| <= length
    ensures 1 <= start && start > |data| ==> r == []
  {
    Strip(PySlice(data, start - 1, start - 1 + length))
  }

  /** `mid_b2i(data, start, length)`: the field read as an integer, `None`
      when it is blank or not an integer. */
  function MidB2I(data: Bytes, start: int, length: int): (r: Option<int>)
    ensures AllSpace(PySlice(data, start - 1, start - 1 + length)) ==> r.None?
  {
    var s := MidB2S(data, start, length);
    if s == [] then None else PyInt(s)
  }

  /** The YMD structure: year, month and day, and the eight bytes together. */
  datatype Ymd = Ymd(year: string, month: string, day: string, formatted: string)

  /** The HMS structure: hour, minute and second, and the six bytes together. */
  datatype Hms = Hms(hour: string, minute: string, second: string, formatted: string)

  /** `parse_ymd(data, start)`. */
  function ParseYmd(data: Bytes, start: int): Ymd {
    Ymd(MidB2S(data, start, 4), MidB2S(data, start + 4, 2), MidB2S(data, start + 6, 2), MidB2S(data, start, 8))
  }

  /** `parse_hms(data, start)`. */
  function ParseHms(data: Bytes, start: int): Hms {
    Hms(MidB2S(data, start, 2), MidB2S(data, start + 2, 2), MidB2S(data, start + 4, 2), MidB2S(data, start, 6))
  }

  /** `parse_time(data, start)`: the four bytes `MSSf` as `"M:SS.f"`; `None`
      unless the stripped field has exactly four characters and all three parts
      convert. */
  function ParseTime(data: Bytes, start: int): (r: Option<string>)
    ensures r.Some? ==> |MidB2S(data, start, 4)| == 4
  {
    var t := MidB2S(data, start, 4);
    if t != [] && |t| == 4 then RaceTime(t) else None
  }

  /** The conversion `parse_time` applies to the four characters it read: each
      part goes through Python's `int`, the seconds are printed with `:02d`. */
  function RaceTime(t: string): (r: Option<string>)
    requires |t| == 4
    ensures r.Some? <==> PyInt(t[..1]).Some? && PyInt(t[1..3]).Some? && PyInt(t[3..]).Some?
  {
    var minutes, seconds, fraction := PyInt(t[..1]), PyInt(t[1..3]), PyInt(t[3..]);
    if minutes.Some? && seconds.Some? && fraction.Some? then
      Some(IntToDecimal(minutes.value) + ":" + Pad2(seconds.value) + "." + IntToDecimal(fraction.value))
    else None
  }

  /** A field depends only on the bytes of its own window: whatever surrounds
      the window, the result is the window's text stripped. */
  lemma MidB2SWindow(pre: Bytes, window: Bytes, post: Bytes)
    ensures MidB2S(pre + window + post, |pre| + 1, |window|) == Strip(window)
  {
    var data := pre + window + post;
    assert data[|pre|..|pre| + |window|] == window;
  }

  /** A read that runs past the end of a truncated buffer yields the bytes
      that are there, stripped, instead of failing. */
  lemma MidB2STruncated(pre: Bytes, tail: Bytes, length: int)
    requires length >= |tail|
    ensures MidB2S(pre + tail, |pre| + 1, length) == Strip(tail)
  {
    SliceToEnd(pre, tail, length);
    MidB2SOfSlice(pre + tail, |pre| + 1, length, tail);
  }

  lemma SliceToEnd(pre: Bytes, tail: Bytes, length: int)
    requires length >= |tail|
    ensures PySlice(pre + tail, |pre|, |pre| + length) == tail
  {
    var data := pre + tail;
    assert data[|pre|..|data|] == tail;
  }

  lemma MidB2SOfSlice(data: Bytes, start: int, length: int, w: Bytes)
    requires PySlice(data, start - 1, start - 1 + length) == w
    ensures MidB2S(data, start, length) == Strip(w)
  {
  }

  /** Field-level round trip for text: a field written without surrounding
      whitespace reads back unchanged. */
  lemma MidB2SRoundTrip(pre: Bytes, field: Bytes, post: Bytes)
    requires IsStripped(field)
    ensures MidB2S(pre + field + post, |pre| + 1, |field|) == field
  {
    MidB2SWindow(pre, field, post);
  }

  /** Field-level round trip for numbers: a zero-padded numeric field reads
      back as its number, so a field of zeros is 0 and never absent. */
  lemma MidB2IRoundTrip(pre: Bytes, n: nat, width: nat, post: Bytes)
    requires |NatToDecimal(n)| <= width
    ensures MidB2I(pre + ZeroPadded(n, width) + post, |pre| + 1, width) == Some(n)
  {
    var field := ZeroPadded(n, width);
    AllDigitsIsRun(field);
    MidB2SRoundTrip(pre, field, post);
    PyIntOfZeroPadded(n, width);
  }

  /** A blank field is absent, not zero. */
  lemma MidB2IBlank(pre: Bytes, window: Bytes, post: Bytes)
    requires AllSpace(window)
    ensures MidB2I(pre + window + post, |pre| + 1, |window|) == None
  {
    MidB2SWindow(pre, window, post);
  }

  /** A field read entirely inside the buffer is the stripped text of its bytes. */
  lemma MidB2SInside(data: Bytes, i: nat, n: nat)
    requires i + n <= |data|
    ensures MidB2S(data, i + 1, n) == Strip(data[i..i + n])
  {
  }

  /** Digits stored at offset `i` read back unchanged. */
  lemma DigitsInside(data: Bytes, i: nat, field: Bytes)
    requires i + |field| <= |data| && data[i..i + |field|] == field
    requires |field| > 0 && AllDigits(field)
    ensures MidB2S(data, i + 1, |field|) == field
  {
    MidB2SInside(data, i, |field|);
    AllDigitsIsRun(field);
  }

  /** An eight-digit date reads back as its parts, and `formatted` is the parts joined. */
  lemma YmdRoundTrip(pre: Bytes, date: Bytes, post: Bytes)
    requires |date| == 8 && AllDigits(date)
    ensures ParseYmd(pre + date + post, |pre| + 1) == Ymd(date[..4], date[4..6], date[6..], date)
    ensures date == date[..4] + date[4..6] + date[6..]
  {
    var data, p := pre + date + post, |pre|;
    assert data[p..p + 8] == date;
    DigitsInside(data, p, date);
    DigitsInside(data, p, date[..4]);
    DigitsInside(data, p + 4, date[4..6]);
    DigitsInside(data, p + 6, date[6..]);
  }

  /** A six-digit time reads back as its parts, and `formatted` is the parts joined. */
  lemma HmsRoundTrip(pre: Bytes, time: Bytes, post: Bytes)
    requires |time| == 6 && AllDigits(time)
    ensures ParseHms(pre + time + post, |pre| + 1) == Hms(time[..2], time[2..4], time[4..], time)
    ensures time == time[..2] + time[2..4] + time[4..]
  {
    var data, p := pre + time + post, |pre|;
    assert data[p..p + 6] == time;
    DigitsInside(data, p, time);
    DigitsInside(data, p, time[..2]);
    DigitsInside(data, p + 2, time[2..4]);
    DigitsInside(data, p + 4, time[4..]);
  }

  /** Four digits `d0 d1 d2 d3` become `"d0:d1d2.d3"`: the race time keeps every
      digit, in order, and only inserts the separators. */
  lemma RaceTimeOfDigits(d: string)
    requires |d| == 4 && AllDigits(d)
    ensures RaceTime(d) == Some([d[0], ':', d[1], d[2], '.', d[3]])
  {
    assert d[..1] == [d[0]] && d[1..3] == [d[1], d[2]] && d[3..] == [d[3]];
    OneDigitRoundTrip(d[0]);
    OneDigitRoundTrip(d[3]);
    Pad2OfTwoDigits(d[1], d[2]);
    PyIntOfDigits([d[1], d[2]]);
    assert IntToDecimal(PyInt(d[..1]).value) == [d[0]];
    assert Pad2(PyInt(d[1..3]).value) == [d[1], d[2]];
    assert IntToDecimal(PyInt(d[3..]).value) == [d[3]];
    assert [d[0]] + ":" + [d[1], d[2]] + "." + [d[3]] == [d[0], ':', d[1], d[2], '.', d[3]];
  }

  /** A four-digit race-time field reads as `"M:SS.f"` with its own digits. */
  lemma ParseTimeOfDigits(pre: Bytes, d: Bytes, post: Bytes)
    requires |d| == 4 && AllDigits(d)
    ensures ParseTime(pre + d + post, |pre| + 1) == Some([d[0], ':', d[1], d[2], '.', d[3]])
  {
    var data, p := pre + d + post, |pre|;
    assert data[p..p + 4] == d;
    DigitsInside(data, p, d);
    RaceTimeOfDigits(d);
  }

  /** A record cut short inside its race-time field has no race time. */
  lemma ParseTimeTruncated(pre: Bytes, tail: Bytes)
    requires |tail| < 4
    ensures ParseTime(pre + tail, |pre| + 1) == None
  {
    MidB2STruncated(pre, tail, 4);
  }

  /** `parse_time` converts each part with Python's `int`, which accepts a sign:
      the bytes `M-Sf` are read as minute M, second -S, tenth f, and printed
      `"M:-S.f"` rather than rejected. */
  lemma RaceTimeAcceptsSignedSeconds(m: char, sec: char, f: char)
    requires IsDigit(m) && '1' <= sec <= '9' && IsDigit(f)
    ensures RaceTime([m, '-', sec, f]) == Some([m, ':', '-', sec, '.', f])
  {
    var t := [m, '-', sec, f];
    assert t[..1] == [m] && t[1..3] == "-" + [sec] && t[3..] == [f];
    OneDigitRoundTrip(m);
    OneDigitRoundTrip(f);
    var v: int := DigitValue(sec);
    OneDigitRoundTrip(sec);
    assert DigitsValue([sec]) == v by {
      assert [sec][..0] == [];
    }
    PyIntOfNegative([sec]);
    assert PyInt(t[1..3]) == Some(-v);
    assert NatToDecimal(v) == [sec];
    assert Pad2(-v) == "-" + [sec];
    assert [m] + ":" + ("-" + [sec]) + "." + [f] == [m, ':', '-', sec, '.', f];
  }
}
