/**
 * KoalasGeoAccessor.sr: the normaliser that turns what a caller passes
 * (nothing, a SpatialReference, an int, a wrapped dict or a string) into the
 * spatial reference the accessor stores.  arcgis' SpatialReference is
 * treated as the plain dict it is built from.
 */
module SpatialReferences {
  import opened Wrappers
  import opened Errors

  /** A JSON-like value inside a dict passed to sr(). */
  datatype Entry =
    | EInt(n: int)
    | EStr(s: string)
    | EDict(d: map<string, Entry>)
    | EOther

  /** A spatial reference, as the dict its constructor was given. */
  datatype SpatialRef = SpatialRef(props: map<string, Entry>)

  const DefaultWkid: int := 4326

  /** {"wkid": n} */
  function WkidRef(n: int): SpatialRef {
    SpatialRef(map["wkid" := EInt(n)])
  }

  /** The kinds of argument sr() distinguishes with isinstance. */
  datatype SrInput =
    | Unset                               // sr=None
    | FromObject(sr: SpatialRef)          // an arcgis SpatialReference
    | FromInt(n: int)
    | FromDict(d: map<string, Entry>)
    | FromStr(s: string)
    | FromOther(typeName: string)

  /** True when the dict names a coordinate system by 'wkid' or 'latestWkid'. */
  predicate NamesWkid(d: map<string, Entry>) {
    "wkid" in d || "latestWkid" in d
  }

  /**
   * A stored reference identifies a coordinate system: it is {"wkid": n}, or the
   * wrapper {"spatialReference": {...}} whose inner dict names a wkid.
   */
  predicate Identifies(sr: SpatialRef) {
    || ("wkid" in sr.props && sr.props["wkid"].EInt?)
    || ("spatialReference" in sr.props && sr.props["spatialReference"].EDict?
        && NamesWkid(sr.props["spatialReference"].d))
  }

  // ---- int(): decimal integer literals -------------------------------------

  predicate IsDigit(c: char) {
    '0' <= c <= '9'
  }

  predicate AllDigits(s: string) {
    forall i :: 0 <= i < |s| ==> IsDigit(s[i])
  }

  function DigitValue(c: char): (d: nat)
    requires IsDigit(c)
    ensures d < 10
  {
    c as int - '0' as int
  }

  function DigitChar(d: nat): (c: char)
    requires d < 10
    ensures IsDigit(c) && DigitValue(c) == d
  {
    ('0' as int + d) as char
  }

  /** The number a string of decimal digits denotes, most significant digit first. */
  function DigitsValue(s: string): nat
    requires AllDigits(s)
  {
    if s == [] then 0 else DigitsValue(s[..|s| - 1]) * 10 + DigitValue(s[|s| - 1])
  }

  /**
   * int(s) for a str argument: an optional sign followed by one or more
   * decimal digits; None where Python raises ValueError.
   */
  function ParseInt(s: string): (r: Option<int>)
    ensures r.Some? ==> (|s| > 0 && AllDigits(s)) || (|s| > 1 && (s[0] == '-' || s[0] == '+') && AllDigits(s[1..]))
    ensures (|s| > 0 && AllDigits(s)) || (|s| > 1 && (s[0] == '-' || s[0] == '+') && AllDigits(s[1..])) ==> r.Some?
  {
    if |s| > 1 && (s[0] == '-' || s[0] == '+') && AllDigits(s[1..]) then
      Some(if s[0] == '-' then 0 - DigitsValue(s[1..]) else DigitsValue(s[1..]) as int)
    else if |s| > 0 && AllDigits(s) then
      Some(DigitsValue(s))
    else
      None
  }

  /** The decimal digits of n, without leading zeros. */
  function NatDigits(n: nat): (s: string)
    ensures |s| > 0 && AllDigits(s)
    ensures |s| > 1 ==> s[0] != '0'
  {
    if n < 10 then [DigitChar(n)] else NatDigits(n / 10) + [DigitChar(n % 10)]
  }

  /** str(n) for an int. */
  function IntToString(n: int): (s: string)
    ensures |s| > 0
  {
    if n < 0 then "-" + NatDigits(-n) else NatDigits(n)
  }

  lemma {:induction false} DigitsRoundTrip(n: nat)
    ensures DigitsValue(NatDigits(n)) == n
  {
    if n >= 10 {
      var s := NatDigits(n);
      var prefix := NatDigits(n / 10);
      assert s[..|s| - 1] == prefix;
      DigitsRoundTrip(n / 10);
    }
  }

  /** int(str(n)) == n: the string written for any wkid reads back as it. */
  lemma ParseIntRoundTrip(n: int)
    ensures ParseInt(IntToString(n)) == Some(n)
  {
    var s := IntToString(n);
    if n < 0 {
      var d := NatDigits(-n);
      DigitsRoundTrip(-n);
      assert s == "-" + d && s[1..] == d;
      assert |s| > 1 && s[0] == '-' && AllDigits(s[1..]);
    } else {
      DigitsRoundTrip(n);
      assert s == NatDigits(n);
      assert s[0] != '-' && s[0] != '+' by {
        assert IsDigit(s[0]);
      }
    }
  }

  // ---- sr() ----------------------------------------------------------------

  /**
   * What sr(input) does to the stored reference: Success(Some(s)) stores s,
   * Success(None) leaves it as it was (a dict without a 'spatialReference'
   * key), Failure(e) raises e and leaves it as it was.
   */
  function ResolveSr(input: SrInput): (r: Result<Option<SpatialRef>, Error>)
    ensures r.Failure? <==>
              || input.FromOther?
              || (input.FromStr? && ParseInt(input.s).None?)
              || (input.FromDict? && "spatialReference" in input.d
                  && !(input.d["spatialReference"].EDict? && NamesWkid(input.d["spatialReference"].d)))
    ensures r == Success(None) <==> input.FromDict? && "spatialReference" !in input.d
    ensures r.Failure? && (input.FromStr? || input.FromOther?) ==> r.error == InvalidSpatialReference
    ensures r.Failure? && input.FromDict? ==>
              r.error == (if input.d["spatialReference"].EDict? then MissingWkid else EntryNotADict)
    ensures input.Unset? ==> r == Success(Some(WkidRef(DefaultWkid)))
    ensures input.FromObject? ==> r == Success(Some(input.sr))
    ensures input.FromInt? ==> r == Success(Some(WkidRef(input.n)))
    ensures input.FromStr? && ParseInt(input.s).Some? ==> r == Success(Some(WkidRef(ParseInt(input.s).value)))
    ensures input.FromDict? && r.Success? && r.value.Some? ==> r.value.value == SpatialRef(input.d)
    ensures r.Success? && r.value.Some? && (input.FromObject? ==> Identifies(input.sr)) ==>
              Identifies(r.value.value)
  {
    match input
    case Unset => Success(Some(WkidRef(DefaultWkid)))
    case FromObject(s) => Success(Some(s))
    case FromInt(n) => Success(Some(WkidRef(n)))
    case FromDict(d) =>
      if "spatialReference" in d then
        (match d["spatialReference"]
         case EDict(inner) =>
           if NamesWkid(inner) then Success(Some(SpatialRef(d))) else Failure(MissingWkid)
         case _ => Failure(EntryNotADict))
      else
        Success(None)
    case FromStr(s) =>
      (match ParseInt(s)
       case Some(n) => Success(Some(WkidRef(n)))
       case None => Failure(InvalidSpatialReference))
    case FromOther(_) => Failure(InvalidSpatialReference)
  }

  /** sr("<n>") stores {"wkid": n} for every integer n written in decimal. */
  lemma NumericStringSr(n: int)
    ensures ResolveSr(FromStr(IntToString(n))) == Success(Some(WkidRef(n)))
  {
    ParseIntRoundTrip(n);
  }

  /** A leading zero does not change the number a digit string denotes. */
  lemma {:induction false} LeadingZeroValue(s: string)
    requires AllDigits(s)
    ensures AllDigits("0" + s) && DigitsValue("0" + s) == DigitsValue(s)
  {
    if s != [] {
      var z := "0" + s;
      assert z[..|z| - 1] == "0" + s[..|s| - 1];
      assert z[|z| - 1] == s[|s| - 1];
      LeadingZeroValue(s[..|s| - 1]);
    }
  }

  /** int() ignores leading zeros, also after a '-', and a leading '+': sr("04326") and sr("+4326") store wkid 4326 too. */
  lemma ParseIntLeadingZeroAndPlus(s: string)
    requires |s| > 0 && AllDigits(s)
    ensures ParseInt("0" + s) == ParseInt(s)
    ensures ParseInt("+" + s) == ParseInt(s)
    ensures ParseInt("-0" + s) == ParseInt("-" + s)
  {
    LeadingZeroValue(s);
    assert ("+" + s)[1..] == s;
    assert ("-0" + s)[1..] == "0" + s && ("-" + s)[1..] == s;
  }

  /** int() on the strings of the examples below. */
  lemma ParseIntExamples()
    ensures ParseInt("4326") == Some(4326) && ParseInt("+4326") == Some(4326) && ParseInt("04326") == Some(4326)
    ensures ParseInt("abc") == None && ParseInt("-") == None
  {
    ParseIntRoundTrip(4326);
    assert IntToString(4326) == "4326";
    ParseIntLeadingZeroAndPlus("4326");
    assert "0" + "4326" == "04326" && "+" + "4326" == "+4326";
    assert !IsDigit('a') && !IsDigit('-');
  }

  /** sr() on None, 3857, "4326", "+4326" and "04326" give the wkids 4326 and 3857; "abc" and "-" fail. */
  lemma SrExamples()
    ensures ResolveSr(Unset) == Success(Some(WkidRef(4326)))
    ensures ResolveSr(FromInt(3857)) == Success(Some(WkidRef(3857)))
    ensures ResolveSr(FromStr("4326")) == Success(Some(WkidRef(4326)))
    ensures ResolveSr(FromStr("+4326")) == Success(Some(WkidRef(4326)))
    ensures ResolveSr(FromStr("04326")) == Success(Some(WkidRef(4326)))
    ensures ResolveSr(FromStr("abc")) == Failure(InvalidSpatialReference)
    ensures ResolveSr(FromStr("-")) == Failure(InvalidSpatialReference)
  {
    ParseIntExamples();
  }
}
