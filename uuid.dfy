/** `isUUID` of the client sync layer: tells an id the store issued apart from
    a client placeholder (the editors build those from `Date.now()`). */
module Uuid {
  import opened Wrappers
  import opened Text

  /** `[0-9a-f]` under the `i` flag. */
  predicate IsHexDigit(c: char) {
    ('0' <= c <= '9') || ('a' <= c <= 'f') || ('A' <= c <= 'F')
  }

  predicate IsHexGroup(g: string, n: nat) {
    |g| == n && forall i :: 0 <= i < |g| ==> IsHexDigit(g[i])
  }

  /** Where the regular expression puts its four '-'. */
  predicate IsDashPosition(i: int) { i == 8 || i == 13 || i == 18 || i == 23 }

  /** `/^[0-9a-f]{8}-[0-9a-f]{4}-[0-9a-f]{4}-[0-9a-f]{4}-[0-9a-f]{12}$/i.test(id)`,
      position by position. */
  predicate IsUuid(s: string) {
    |s| == 36 &&
    forall i :: 0 <= i < 36 ==> if IsDashPosition(i) then s[i] == '-' else IsHexDigit(s[i])
  }

  /** The five hex groups of lengths 8-4-4-4-12 joined by '-' form an id. */
  lemma UuidFromGroups(a: string, b: string, c: string, d: string, e: string)
    requires IsHexGroup(a, 8) && IsHexGroup(b, 4) && IsHexGroup(c, 4) && IsHexGroup(d, 4) && IsHexGroup(e, 12)
    ensures IsUuid(a + "-" + b + "-" + c + "-" + d + "-" + e)
  {
    var s := a + "-" + b + "-" + c + "-" + d + "-" + e;
    forall i | 0 <= i < 36
      ensures if IsDashPosition(i) then s[i] == '-' else IsHexDigit(s[i])
    {
      if i < 8 { assert s[i] == a[i]; }
      else if 8 < i < 13 { assert s[i] == b[i - 9]; }
      else if 13 < i < 18 { assert s[i] == c[i - 14]; }
      else if 18 < i < 23 { assert s[i] == d[i - 19]; }
      else if 23 < i { assert s[i] == e[i - 24]; }
    }
  }

  /** Conversely, every id is such a joining of five hex groups. */
  lemma UuidGroups(s: string)
    requires IsUuid(s)
    ensures s == s[..8] + "-" + s[9..13] + "-" + s[14..18] + "-" + s[19..23] + "-" + s[24..]
    ensures IsHexGroup(s[..8], 8) && IsHexGroup(s[9..13], 4) && IsHexGroup(s[14..18], 4)
    ensures IsHexGroup(s[19..23], 4) && IsHexGroup(s[24..], 12)
  {
    var t := s[..8] + "-" + s[9..13] + "-" + s[14..18] + "-" + s[19..23] + "-" + s[24..];
    assert |t| == 36;
    forall i | 0 <= i < 36 ensures t[i] == s[i] {
      if IsDashPosition(i) { assert s[i] == '-'; }
    }
    forall i | 0 <= i < 8 ensures IsHexDigit(s[..8][i]) { assert !IsDashPosition(i); }
    forall i | 0 <= i < 4 ensures IsHexDigit(s[9..13][i]) { assert !IsDashPosition(i + 9); }
    forall i | 0 <= i < 4 ensures IsHexDigit(s[14..18][i]) { assert !IsDashPosition(i + 14); }
    forall i | 0 <= i < 4 ensures IsHexDigit(s[19..23][i]) { assert !IsDashPosition(i + 19); }
    forall i | 0 <= i < 12 ensures IsHexDigit(s[24..][i]) { assert !IsDashPosition(i + 24); }
  }

  /** The `i` flag: letter case does not matter. */
  lemma UuidIgnoresCase(s: string)
    ensures IsUuid(s) <==> IsUuid(AsciiLower(s))
  {
    if |s| == 36 {
      forall i | 0 <= i < 36 ensures AsciiLower(s)[i] == LowerChar(s[i]) {
        AsciiLowerAt(s, i);
      }
    }
  }

  /** A string of digits only, such as a `Date.now()` placeholder, is never
      taken for a store id. */
  lemma DigitsAreNotUuid(s: string)
    requires AllDigits(s)
    ensures !IsUuid(s)
  {
    if |s| == 36 {
      assert IsDigit(s[8]) && IsDashPosition(8);
    }
  }

  lemma PlaceholderIsNotUuid(now: nat)
    ensures !IsUuid(NatToString(now))
  {
    DigitsAreNotUuid(NatToString(now));
  }

  /** `isUUID(id) ? id : undefined`; `isUUID(undefined)` tests the string
      "undefined" and fails. */
  function IdIfUuid(id: Option<string>): (r: Option<string>)
    ensures r.Some? <==> id.Some? && IsUuid(id.value)
    ensures r.Some? ==> r == id
  {
    if id.Some? && IsUuid(id.value) then id else None
  }
}
