/**
 * The `formatTime` helper that the interview room and the practice page
 * both define (identically) to show a seconds counter as `MM:SS`.
 */
module TimeFormat {
  import opened Common
  import opened Text

  /** `Math.floor(seconds / 60)`; Dafny's `/` by a positive divisor already rounds down. */
  function Minutes(seconds: int): (m: int)
    ensures m * 60 <= seconds < m * 60 + 60
  {
    seconds / 60
  }

  /** `seconds % 60` with JavaScript's `%`, whose remainder takes the sign of the dividend. */
  function Seconds(seconds: int): (r: int)
    ensures seconds >= 0 ==> 0 <= r < 60
    ensures seconds < 0 ==> -60 < r <= 0
    ensures (seconds - r) % 60 == 0
  {
    if seconds >= 0 then seconds % 60 else -((-seconds) % 60)
  }

  /** `formatTime(seconds)`: minutes and seconds, each padded on the left with '0' to two characters. */
  function FormatTime(seconds: int): string
  {
    PadStart(IntToString(Minutes(seconds)), 2, '0') + ":" + PadStart(IntToString(Seconds(seconds)), 2, '0')
  }

  /** For a non-negative counter the two fields split it exactly, and the seconds field is 0..59. */
  lemma FieldsSplit(s: int)
    requires s >= 0
    ensures 0 <= Seconds(s) <= 59
    ensures 0 <= Minutes(s) && Minutes(s) * 60 + Seconds(s) == s
  {
  }

  /** Reads an `MM:SS` text back: the digits before the first ':' are minutes, those after are seconds. */
  function ParseTime(t: string): Option<int>
  {
    match FindColon(t)
    case None => None
    case Some(i) =>
      var m, s := t[..i], t[i + 1..];
      if AllDigits(m) && AllDigits(s) then Some(ParseDecimal(m) * 60 + ParseDecimal(s)) else None
  }

  predicate AllDigits(s: string)
  {
    forall k :: 0 <= k < |s| ==> IsDigit(s[k])
  }

  /** The index of the first ':' in `t`, if any. */
  function FindColon(t: string): (r: Option<nat>)
    ensures r.Some? ==> r.value < |t| && t[r.value] == ':'
    ensures r.Some? ==> forall k :: 0 <= k < r.value ==> t[k] != ':'
    ensures r.None? ==> forall k :: 0 <= k < |t| ==> t[k] != ':'
  {
    if t == [] then None
    else if t[0] == ':' then Some(0)
    else match FindColon(t[1..])
      case None => None
      case Some(i) => Some(i + 1)
  }

  /** A zero-padded two-character field of the digits of `n` parses back to `n`. */
  lemma {:induction false} PaddedField(n: nat)
    ensures var f := PadStart(DecimalDigits(n), 2, '0');
      (forall k :: 0 <= k < |f| ==> IsDigit(f[k])) && ParseDecimal(f) == n
  {
    var d := DecimalDigits(n);
    ParseDecimalDigits(n);
    if |d| < 2 {
      assert |d| == 1;
      assert PadStart(d, 2, '0') == "0" + d;
      ParseDecimalLeadingZero(d);
    }
  }

  /** The first ':' of a text that starts with a colon-free prefix is found right after that prefix. */
  lemma {:induction false} FindColonAfter(p: string, rest: string)
    requires forall k :: 0 <= k < |p| ==> p[k] != ':'
    ensures FindColon(p + ":" + rest) == Some(|p|)
    decreases |p|
  {
    if p != [] {
      assert (p + ":" + rest)[1..] == p[1..] + ":" + rest;
      FindColonAfter(p[1..], rest);
    }
  }

  /** Two digit fields joined by ':' parse back to minutes times sixty plus seconds. */
  lemma {:induction false} ParseJoined(mf: string, sf: string)
    requires AllDigits(mf) && AllDigits(sf)
    ensures ParseTime(mf + ":" + sf) == Some(ParseDecimal(mf) * 60 + ParseDecimal(sf))
  {
    var t := mf + ":" + sf;
    FindColonAfter(mf, sf);
    assert t[..|mf|] == mf;
    assert t[|mf| + 1..] == sf;
  }

  /** The rendered time parses back to the counter it shows, for every non-negative counter. */
  lemma {:induction false} FormatTimeRoundTrip(s: int)
    requires s >= 0
    ensures ParseTime(FormatTime(s)) == Some(s)
  {
    FieldsSplit(s);
    var m, sec := Minutes(s), Seconds(s);
    var mf, sf := PadStart(DecimalDigits(m), 2, '0'), PadStart(DecimalDigits(sec), 2, '0');
    PaddedField(m);
    PaddedField(sec);
    assert IntToString(m) == DecimalDigits(m);
    assert IntToString(sec) == DecimalDigits(sec);
    assert FormatTime(s) == mf + ":" + sf;
    ParseJoined(mf, sf);
    assert ParseDecimal(mf) == m;
    assert ParseDecimal(sf) == sec;
  }

  /** `MM:SS` is exactly five characters below 100 minutes; beyond that the minute field grows, it is never cut. */
  lemma {:induction false} FormatTimeLength(s: int)
    requires s >= 0
    ensures s < 6000 ==> |FormatTime(s)| == 5
    ensures s >= 6000 ==> |FormatTime(s)| >= 6
  {
    FieldsSplit(s);
    DecimalDigitsLength(Minutes(s));
    DecimalDigitsLength(Seconds(s));
  }

  /** A clock that has gone backwards shows a negative counter as two negative fields, e.g. -1 as "-1:-1". */
  lemma NegativeCounter()
    ensures FormatTime(-1) == "-1:-1"
    ensures FormatTime(-61) == "-2:-1"
  {
    assert Minutes(-1) == -1 && Seconds(-1) == -1;
    assert Minutes(-61) == -2 && Seconds(-61) == -1;
    assert IntToString(-1) == "-1";
    assert IntToString(-2) == "-2";
  }
}
