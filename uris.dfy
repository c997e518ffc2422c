/** Content URIs as the routing code sees them, and the two `ContentUris`
    helpers it relies on. The Android classes are not part of this model; the
    behaviour fixed here is an explicit assumption:
    - a URI is an authority and its path segments, the scheme is ignored by
      the matcher and is not kept; Android never produces an empty path
      segment, so the matcher's `#` is modelled as one or more digits;
    - `ContentUris.parseId` reads the last path segment with `Long.parseLong`
      and answers -1 when there is no segment; the numerals read are an
      optional sign followed by ASCII digits, of unbounded value (Java's
      other Unicode decimal digits and its 64-bit range are not modelled);
    - `ContentUris.withAppendedId` appends the decimal form of the id as one
      more segment. */
module Uris {
  import opened Wrappers

  datatype Uri = Uri(authority: string, segments: seq<string>)

  predicate IsDigit(c: char) { '0' <= c <= '9' }

  /** Every character is a decimal digit (vacuously true of the empty string). */
  predicate AllDigits(s: string) { forall i :: 0 <= i < |s| ==> IsDigit(s[i]) }

  /** What a `#` pattern segment accepts: one or more decimal digits. */
  predicate IsNumeral(s: string) { |s| > 0 && AllDigits(s) }

  function DigitValue(c: char): (d: nat)
    requires IsDigit(c)
    ensures d < 10
  {
    (c as int) - ('0' as int)
  }

  function DigitChar(d: nat): (c: char)
    requires d < 10
    ensures IsDigit(c) && DigitValue(c) == d
  {
    (('0' as int) + d) as char
  }

  /** The value of a string of decimal digits, read most significant first. */
  function NumeralValue(s: string): nat
    requires AllDigits(s)
  {
    if s == [] then 0 else NumeralValue(s[..|s| - 1]) * 10 + DigitValue(s[|s| - 1])
  }

  /** Shortest decimal form of a natural number (`Long.toString` for n >= 0). */
  function NatToNumeral(n: nat): string
  {
    if n < 10 then [DigitChar(n)] else NatToNumeral(n / 10) + [DigitChar(n % 10)]
  }

  /** `String.valueOf(long)`: a leading '-' for negative values. */
  function LongToString(n: int): string
  {
    if n < 0 then "-" + NatToNumeral(-n) else NatToNumeral(n)
  }

  /** `Long.parseLong` restricted to ASCII digits and unbounded values: None
      stands for NumberFormatException. */
  function ParseLong(s: string): Option<int>
  {
    if |s| > 0 && (s[0] == '-' || s[0] == '+') && IsNumeral(s[1..]) then
      var magnitude: int := NumeralValue(s[1..]);
      Some(if s[0] == '-' then -magnitude else magnitude)
    else if IsNumeral(s) then
      Some(NumeralValue(s))
    else
      None
  }

  /** `ContentUris.parseId` over `ParseLong`: None stands for NumberFormatException. */
  function ParseId(u: Uri): Option<int>
  {
    if u.segments == [] then Some(-1) else ParseLong(u.segments[|u.segments| - 1])
  }

  /** `ContentUris.withAppendedId`. */
  function WithAppendedId(base: Uri, id: int): Uri
  {
    Uri(base.authority, base.segments + [LongToString(id)])
  }

  /** Decimal printing and reading agree on naturals. */
  lemma {:induction false} NatNumeralRoundTrip(n: nat)
    ensures IsNumeral(NatToNumeral(n)) && NumeralValue(NatToNumeral(n)) == n
  {
    if n >= 10 {
      NatNumeralRoundTrip(n / 10);
      var s := NatToNumeral(n);
      assert s[..|s| - 1] == NatToNumeral(n / 10);
    }
  }

  /** Reading back what `String.valueOf(long)` printed gives the same value. */
  lemma LongRoundTrip(n: int)
    ensures ParseLong(LongToString(n)) == Some(n)
  {
    NatNumeralRoundTrip(if n < 0 then -n else n);
    if n < 0 {
      assert LongToString(n)[1..] == NatToNumeral(-n);
    }
  }

  /** The id appended by `withAppendedId` is the id `parseId` reads back, and
      the base's authority and segments are kept in front of it. */
  lemma AppendedIdRoundTrip(base: Uri, id: int)
    ensures WithAppendedId(base, id).authority == base.authority
    ensures WithAppendedId(base, id).segments[..|base.segments|] == base.segments
    ensures |WithAppendedId(base, id).segments| == |base.segments| + 1
    ensures ParseId(WithAppendedId(base, id)) == Some(id)
  {
    LongRoundTrip(id);
  }

  /** A URI whose last segment is a plain numeral has that numeral's value as id. */
  lemma ParseIdOfNumeral(u: Uri)
    requires |u.segments| > 0 && IsNumeral(u.segments[|u.segments| - 1])
    ensures ParseId(u) == Some(NumeralValue(u.segments[|u.segments| - 1]) as int)
  {
  }
}
