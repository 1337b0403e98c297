/** Python's `int(text)` on ASCII text, which turns an embedding file's
    base name into a track id: surrounding white space is ignored, one
    optional sign is allowed, then decimal digits with single underscores
    between them. Leading zeros are accepted, so "000574" is 574. */
module PythonInt {
  import opened Common

  predicate IsSpace(c: char)
  {
    c == ' ' || c == '\t' || c == '\n' || c == '\r' || c as int == 11 || c as int == 12
  }

  predicate IsDigit(c: char)
  {
    '0' <= c <= '9'
  }

  predicate AllDigits(s: string)
  {
    forall i :: 0 <= i < |s| ==> IsDigit(s[i])
  }

  function DigitValue(c: char): nat
    requires IsDigit(c)
  {
    c as int - '0' as int
  }

  /** The value of a string of decimal digits, most significant first. */
  function DigitsValue(s: string): nat
    requires AllDigits(s)
  {
    if s == [] then 0 else 10 * DigitsValue(s[..|s| - 1]) + DigitValue(s[|s| - 1])
  }

  function TrimStart(s: string): (r: string)
    ensures |r| <= |s|
  {
    if s != [] && IsSpace(s[0]) then TrimStart(s[1..]) else s
  }

  function TrimEnd(s: string): (r: string)
    ensures |r| <= |s|
  {
    if s != [] && IsSpace(s[|s| - 1]) then TrimEnd(s[..|s| - 1]) else s
  }

  /** Digits with single underscores between them, as `int` accepts. */
  predicate DigitGroups(s: string)
  {
    && |s| > 0 && IsDigit(s[0]) && IsDigit(s[|s| - 1])
    && (forall i :: 0 <= i < |s| ==> IsDigit(s[i]) || s[i] == '_')
    && (forall i :: 0 <= i < |s| - 1 ==> s[i] == '_' ==> s[i + 1] != '_')
  }

  function RemoveUnderscores(s: string): (r: string)
    requires forall i :: 0 <= i < |s| ==> IsDigit(s[i]) || s[i] == '_'
    ensures AllDigits(r)
  {
    if s == [] then []
    else if s[0] == '_' then RemoveUnderscores(s[1..])
    else [s[0]] + RemoveUnderscores(s[1..])
  }

  /** `int(text)`: Some(value), or None where Python raises ValueError. */
  function ParseInt(text: string): (r: Option<int>)
    ensures text == "" ==> r == None
  {
    var t := TrimEnd(TrimStart(text));
    var negative := |t| > 0 && t[0] == '-';
    var body := if |t| > 0 && (t[0] == '-' || t[0] == '+') then t[1..] else t;
    if DigitGroups(body) then
      var magnitude: int := DigitsValue(RemoveUnderscores(body));
      Some(if negative then -magnitude else magnitude)
    else
      None
  }

  /** `file_[:-4]`: the name without its last four characters (".npy"); a
      name of fewer than four characters gives the empty string. */
  function StripExtension(name: string): (r: string)
    ensures |name| >= 4 ==> name == r + name[|name| - 4..]
    ensures |name| < 4 ==> r == ""
  {
    if |name| >= 4 then name[..|name| - 4] else ""
  }

  /** `int(file_[:-4])`, the track id of an embedding file. */
  function TrackIdOf(name: string): (r: Option<int>)
    ensures |name| <= 4 ==> r == None
  {
    ParseInt(StripExtension(name))
  }

  /** The decimal spelling of `n`, without leading zeros. */
  function Decimal(n: nat): (r: string)
    ensures |r| > 0 && AllDigits(r)
  {
    if n < 10 then [('0' as int + n) as char]
    else Decimal(n / 10) + [('0' as int + n % 10) as char]
  }

  function Zeros(k: nat): (r: string)
    ensures |r| == k && AllDigits(r)
    ensures forall i :: 0 <= i < k ==> r[i] == '0'
  {
    if k == 0 then "" else Zeros(k - 1) + "0"
  }

  lemma {:induction false} DecimalValue(n: nat)
    ensures DigitsValue(Decimal(n)) == n
  {
    if n >= 10 {
      DecimalValue(n / 10);
      var d := Decimal(n);
      assert d[..|d| - 1] == Decimal(n / 10);
    }
  }

  /** Leading zeros do not change the value of a digit string. */
  lemma {:induction false} LeadingZerosIgnored(k: nat, s: string)
    requires AllDigits(s)
    ensures DigitsValue(Zeros(k) + s) == DigitsValue(s)
  {
    var z := Zeros(k);
    if s == [] {
      assert z + s == z;
      ZerosValue(k);
    } else {
      var s' := s[..|s| - 1];
      assert (z + s)[..|z + s| - 1] == z + s';
      LeadingZerosIgnored(k, s');
    }
  }

  lemma {:induction false} ZerosValue(k: nat)
    ensures DigitsValue(Zeros(k)) == 0
  {
    if k > 0 {
      ZerosValue(k - 1);
      assert Zeros(k)[..k - 1] == Zeros(k - 1);
    }
  }

  lemma {:induction false} RemoveUnderscoresOfDigits(s: string)
    requires AllDigits(s)
    ensures RemoveUnderscores(s) == s
  {
    if s != [] {
      RemoveUnderscoresOfDigits(s[1..]);
    }
  }

  /** A non-empty string of plain digits parses to its decimal value. */
  lemma ParseDigits(s: string)
    requires |s| > 0 && AllDigits(s)
    ensures ParseInt(s) == Some(DigitsValue(s) as int)
  {
    assert !IsSpace(s[0]) && !IsSpace(s[|s| - 1]);
    assert TrimStart(s) == s;
    assert TrimEnd(s) == s;
    assert DigitGroups(s);
    RemoveUnderscoresOfDigits(s);
  }

  /** A zero-padded decimal file name parses back to the number it spells:
      `int(("0" * k + str(n) + ext)[:-4]) == n` for any four-character `ext`. */
  lemma ZeroPaddedNameRoundTrip(k: nat, n: nat, ext: string)
    requires |ext| == 4
    ensures TrackIdOf(Zeros(k) + Decimal(n) + ext) == Some(n)
  {
    var digits := Zeros(k) + Decimal(n);
    assert StripExtension(digits + ext) == digits;
    assert AllDigits(digits);
    ParseDigits(digits);
    LeadingZerosIgnored(k, Decimal(n));
    DecimalValue(n);
  }

  /** The file "000574.npy" belongs to track 574. */
  lemma PaddedTrackExample()
    ensures TrackIdOf("000574.npy") == Some(574)
  {
    assert Decimal(574) == "574" by {
      assert Decimal(5) == "5";
      assert Decimal(57) == "57";
    }
    assert Zeros(3) == "000";
    assert "000574.npy" == Zeros(3) + Decimal(574) + ".npy";
    ZeroPaddedNameRoundTrip(3, 574, ".npy");
  }

  /** An unpadded name parses the same way. */
  lemma ShortNameExample()
    ensures TrackIdOf("574.npy") == Some(574)
  {
    assert Decimal(574) == "574" by {
      assert Decimal(5) == "5";
      assert Decimal(57) == "57";
    }
    assert "574.npy" == Zeros(0) + Decimal(574) + ".npy";
    ZeroPaddedNameRoundTrip(0, 574, ".npy");
  }

  /** A name whose stem is not a number, such as a stray ".DS_Store", has no
      track id (Python raises ValueError). */
  lemma NonNumericNameRejected()
    ensures TrackIdOf(".DS_Store") == None
  {
    var stem := StripExtension(".DS_Store");
    assert stem == ".DS_S";
    assert TrimStart(stem) == stem;
    assert TrimEnd(stem) == stem;
    assert !DigitGroups(stem);
  }
}
