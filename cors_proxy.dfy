/** The address of one hourly Windborne snapshot, as `corsProxy.ts` builds it. */
module CorsProxy {

  import opened Wrappers
  import opened Decimal

  /** Base URL of the Windborne snapshots behind the development proxy. */
  const WindborneBaseUrl: string := "/api/windborne"

  const JsonSuffix: string := ".json"

  /** JavaScript's `s.padStart(width, c)` for a one-character pad string. */
  function PadStart(s: string, width: nat, c: char): (r: string)
    ensures |s| >= width ==> r == s
    ensures |s| < width ==> |r| == width && r[width - |s|..] == s
    ensures forall i :: 0 <= i < |r| - |s| ==> r[i] == c
    decreases width - |s|
  {
    if |s| >= width then s else PadStart([c] + s, width, c)
  }

  /** The hour as it appears in the file name: its decimal text, padded to two characters with zeros. */
  function HourSegment(hour: int): (s: string)
    ensures |s| >= 2
    ensures 0 <= hour < 100 ==> |s| == 2 && AllDigits(s)
    ensures hour >= 10 || hour < 0 ==> s == IntToDecimal(hour)
  {
    PadStart(IntToDecimal(hour), 2, '0')
  }

  /** `getWindborneUrl(hour)`; the hour defaults to 0. The address is the base URL,
      then `/`, then the hour segment, then `.json`. */
  function WindborneUrl(hour: int := 0): (r: string)
    ensures |r| == |WindborneBaseUrl| + 1 + |HourSegment(hour)| + |JsonSuffix|
    ensures r[..|WindborneBaseUrl| + 1] == WindborneBaseUrl + "/"
    ensures r[|r| - |JsonSuffix|..] == JsonSuffix
    ensures r[|WindborneBaseUrl| + 1..|r| - |JsonSuffix|] == HourSegment(hour)
  {
    WindborneBaseUrl + "/" + HourSegment(hour) + JsonSuffix
  }

  /** Recovers the hour from a snapshot address; `None` for any other string. */
  function HourOfUrl(url: string): Option<int> {
    var prefix := WindborneBaseUrl + "/";
    if |url| >= |prefix| + |JsonSuffix| && url[..|prefix|] == prefix
       && url[|url| - |JsonSuffix|..] == JsonSuffix
    then ParseInt(url[|prefix|..|url| - |JsonSuffix|])
    else None
  }

  /** Hours 0 to 9 receive exactly one leading zero. */
  lemma SingleDigitHourPadded(hour: int)
    requires 0 <= hour <= 9
    ensures WindborneUrl(hour) == "/api/windborne/0" + [DigitChar(hour)] + ".json"
  {
    assert IntToDecimal(hour) == [DigitChar(hour)];
    assert HourSegment(hour) == ['0', DigitChar(hour)];
  }

  /** Hours written with two or more characters are not padded. */
  lemma LongHourUnpadded(hour: int)
    requires hour >= 10 || hour < 0
    ensures WindborneUrl(hour) == "/api/windborne/" + IntToDecimal(hour) + ".json"
  {
    assert |NatToDecimal(if hour < 0 then -hour else hour)| >= 1;
  }

  /** The default argument is hour 0. */
  lemma DefaultHourIsZero()
    ensures WindborneUrl() == "/api/windborne/00.json"
  {
    SingleDigitHourPadded(0);
  }

  /** The padded segment reads back as the hour. */
  lemma {:induction false} HourSegmentRoundTrip(hour: int)
    ensures ParseInt(HourSegment(hour)) == Some(hour)
  {
    IntToDecimalRoundTrip(hour);
    if 0 <= hour <= 9 {
      var seg := HourSegment(hour);
      assert IntToDecimal(hour) == [DigitChar(hour)];
      assert seg == ['0', DigitChar(hour)];
      assert seg[..1] == ['0'];
      DigitCharValue(hour);
      assert DigitsValue(seg) == DigitsValue(['0']) * 10 + DigitValue(DigitChar(hour));
    }
  }

  /** The hour can be read back from the address. */
  lemma {:induction false} WindborneUrlRoundTrip(hour: int)
    ensures HourOfUrl(WindborneUrl(hour)) == Some(hour)
  {
    var url := WindborneUrl(hour);
    var prefix := WindborneBaseUrl + "/";
    assert url == prefix + HourSegment(hour) + JsonSuffix;
    assert url[..|prefix|] == prefix;
    assert url[|url| - |JsonSuffix|..] == JsonSuffix;
    assert url[|prefix|..|url| - |JsonSuffix|] == HourSegment(hour);
    HourSegmentRoundTrip(hour);
  }

  /** Distinct hours give distinct addresses. */
  lemma WindborneUrlInjective(a: int, b: int)
    ensures WindborneUrl(a) == WindborneUrl(b) <==> a == b
  {
    WindborneUrlRoundTrip(a);
    WindborneUrlRoundTrip(b);
  }
}
