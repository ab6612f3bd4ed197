/** The input validators of utils/validation.ts: the email, phone number and
    username formats, the age rule, and the username and phone number
    normalisers. Each regular expression is stated twice, once as the
    shape the pattern describes and once as the check that decides it, and
    the two are proved to agree. */
module Validation {
  import opened Common

  // ---------------------------------------------------------------------
  // isValidEmail: /^[^\s@]+@[^\s@]+\.[^\s@]+$/

  /** A character `[^\s@]` matches. */
  predicate Plain(c: char) {
    !IsWhitespace(c) && c != '@'
  }

  predicate AllPlain(s: string) {
    forall k :: 0 <= k < |s| ==> Plain(s[k])
  }

  /** s is `[^\s@]+` up to i, '@' at i, `[^\s@]+` up to j, '.' at j and
      `[^\s@]+` after it. */
  ghost predicate EmailSplit(s: string, i: int, j: int) {
    && 0 < i && i + 1 < j && j + 1 < |s|
    && s[i] == '@' && s[j] == '.'
    && AllPlain(s[..i]) && AllPlain(s[i + 1..j]) && AllPlain(s[j + 1..])
  }

  /** The strings the email pattern matches. */
  ghost predicate EmailPattern(s: string) {
    exists i, j :: EmailSplit(s, i, j)
  }

  /** isValidEmail: exactly one '@', not first, no whitespace, and a '.'
      strictly inside the part after the '@'. */
  function IsValidEmail(s: string): (ok: bool)
    ensures ok <==> EmailPattern(s)
  {
    match FirstIndex(s, (c: char) => c == '@')
    case None =>
      assert !EmailPattern(s);
      false
    case Some(i) =>
      var ok := 0 < i && (forall k :: 0 <= k < |s| && k != i ==> Plain(s[k])) && (exists j :: i + 1 < j < |s| - 1 && s[j] == '.');
      EmailCheckAgrees(s, i);
      ok
  }

  /** With i the first '@', the check at i decides the pattern. */
  lemma {:induction false} EmailCheckAgrees(s: string, i: nat)
    requires i < |s| && s[i] == '@' && forall k :: 0 <= k < i ==> s[k] != '@'
    ensures EmailPattern(s) <==>
      0 < i && (forall k :: 0 <= k < |s| && k != i ==> Plain(s[k])) && (exists j :: i + 1 < j < |s| - 1 && s[j] == '.')
  {
    if 0 < i && (forall k :: 0 <= k < |s| && k != i ==> Plain(s[k])) && (exists j :: i + 1 < j < |s| - 1 && s[j] == '.') {
      var j :| i + 1 < j < |s| - 1 && s[j] == '.';
      assert AllPlain(s[..i]) && AllPlain(s[i + 1..j]);
      assert AllPlain(s[j + 1..]);
      assert EmailSplit(s, i, j);
    }
    if EmailPattern(s) {
      var i', j :| EmailSplit(s, i', j);
      assert i' == i;
      forall k | 0 <= k < |s| && k != i ensures Plain(s[k]) {
        if k < i {
          assert s[..i][k] == s[k];
        } else if k < j {
          assert s[i + 1..j][k - i - 1] == s[k];
        } else if k > j {
          assert s[j + 1..][k - j - 1] == s[k];
        }
      }
    }
  }

  lemma EmailExamples()
    ensures IsValidEmail("a@b.c")
    ensures !IsValidEmail("a@b@c.d")
    ensures !IsValidEmail("a@.c")
  {
    assert EmailSplit("a@b.c", 1, 3);
    assert !Plain("a@b@c.d"[3]);
  }

  // ---------------------------------------------------------------------
  // isValidPhoneNumber and formatPhoneNumber

  /** What `\d` matches. */
  predicate IsDigit(c: char) {
    '0' <= c <= '9'
  }

  /** `phone.replace(/\D/g, '')`: the digits of s, in order. */
  function Digits(s: string): (d: string)
    ensures |d| <= |s|
    ensures forall k :: 0 <= k < |d| ==> IsDigit(d[k])
  {
    Filter(s, IsDigit)
  }

  /** isValidPhoneNumber: the number of digit characters is 10 to 15. */
  function IsValidPhoneNumber(s: string): (ok: bool)
    ensures ok <==> 10 <= |Filter(s, IsDigit)| <= 15
  {
    var cleaned := Digits(s);
    10 <= |cleaned| && |cleaned| <= 15
  }

  /** `s.replace('+', '')` with a string pattern: the first '+' only. */
  function RemoveFirstPlus(s: string): (r: string)
    ensures '+' !in s ==> r == s
    ensures '+' in s ==> |r| == |s| - 1
  {
    if s == [] then []
    else if s[0] == '+' then s[1..]
    else [s[0]] + RemoveFirstPlus(s[1..])
  }

  /** The country code used when the caller gives none. */
  const DefaultCountryCode := "+1"

  /** formatPhoneNumber: the digits of phone, behind a '+' when they already
      start with the country code's digits, behind the country code
      otherwise. */
  function FormatPhoneNumber(phone: string, countryCode: Option<string>): (r: string)
    ensures |Digits(phone)| < |r|
    ensures |Digits(phone)| <= |r| && r[|r| - |Digits(phone)|..] == Digits(phone)
    ensures var cc := if countryCode.Some? then countryCode.value else DefaultCountryCode;
      && (RemoveFirstPlus(cc) <= Digits(phone) ==> r == "+" + Digits(phone))
      && (!(RemoveFirstPlus(cc) <= Digits(phone)) ==> cc <= r)
  {
    var cc := if countryCode.Some? then countryCode.value else DefaultCountryCode;
    var cleaned := Digits(phone);
    if RemoveFirstPlus(cc) <= cleaned then "+" + cleaned else cc + cleaned
  }

  /** For a country code written '+' and digits, the result is '+' followed
      by digits only, the country digits first and the phone's digits last. */
  lemma {:induction false} FormattedShape(phone: string, country: string)
    requires forall k :: 0 <= k < |country| ==> IsDigit(country[k])
    ensures var r := FormatPhoneNumber(phone, Some("+" + country));
      && r[0] == '+' && country <= r[1..]
      && (forall k :: 1 <= k < |r| ==> IsDigit(r[k]))
      && Digits(r) == r[1..]
  {
    var r := FormatPhoneNumber(phone, Some("+" + country));
    assert RemoveFirstPlus("+" + country) == country;
    var cleaned := Digits(phone);
    assert r[1..] == if country <= cleaned then cleaned else country + cleaned;
    assert r == [r[0]] + r[1..];
    FilterAppend([r[0]], r[1..], IsDigit);
    FilterKeepsAll(r[1..], IsDigit);
  }

  /** Formatting a formatted number again changes nothing, for a country
      code written '+' and digits. */
  lemma {:induction false} FormatIdempotent(phone: string, country: string)
    requires forall k :: 0 <= k < |country| ==> IsDigit(country[k])
    ensures var r := FormatPhoneNumber(phone, Some("+" + country));
      FormatPhoneNumber(r, Some("+" + country)) == r
  {
    FormattedShape(phone, country);
    assert RemoveFirstPlus("+" + country) == country;
  }

  // ---------------------------------------------------------------------
  // isValidUsername and sanitizeUsername: [a-zA-Z0-9_-]

  predicate UsernameChar(c: char) {
    ('a' <= c <= 'z') || ('A' <= c <= 'Z') || ('0' <= c <= '9') || c == '_' || c == '-'
  }

  /** isValidUsername: 3 to 20 characters, each a letter, digit, '_' or '-'. */
  function IsValidUsername(s: string): (ok: bool)
    ensures ok ==> 3 <= |s| <= 20
    ensures ok <==> 3 <= |s| <= 20 && Filter(s, UsernameChar) == s
  {
    FilterIdentity(s, UsernameChar);
    3 <= |s| <= 20 && forall k :: 0 <= k < |s| ==> UsernameChar(s[k])
  }

  /** A filter leaves a sequence unchanged exactly when every element passes. */
  lemma FilterIdentity<T>(s: seq<T>, p: T -> bool)
    ensures Filter(s, p) == s <==> forall k :: 0 <= k < |s| ==> p(s[k])
  {
    if forall k :: 0 <= k < |s| ==> p(s[k]) {
      FilterKeepsAll(s, p);
    } else {
      var k :| 0 <= k < |s| && !p(s[k]);
      FilterMembers(s, p);
      assert s[k] in s;
    }
  }

  /** String.prototype.toLowerCase on the characters a username keeps. */
  function Lower(c: char): char {
    if 'A' <= c <= 'Z' then (c as int + 32) as char else c
  }

  function LowerAll(s: string): (r: string)
    ensures |r| == |s| && forall k :: 0 <= k < |s| ==> r[k] == Lower(s[k])
  {
    seq(|s|, k requires 0 <= k < |s| => Lower(s[k]))
  }

  /** The characters a sanitized username consists of. */
  predicate SanitizedChar(c: char) {
    ('a' <= c <= 'z') || ('0' <= c <= '9') || c == '_' || c == '-'
  }

  /** sanitizeUsername: drop every character outside [a-zA-Z0-9_-], then
      lower-case what is left. */
  function SanitizeUsername(s: string): (r: string)
    ensures |r| <= |s|
    ensures forall k :: 0 <= k < |r| ==> SanitizedChar(r[k])
  {
    LowerAll(Filter(s, UsernameChar))
  }

  /** The sanitized name is the lower-cased characters of the input that
      the pattern allows, in their order: a lower-case subsequence. */
  lemma {:induction false} SanitizePicks(s: string) returns (idx: seq<nat>)
    ensures |idx| == |SanitizeUsername(s)|
    ensures forall k :: 0 <= k < |idx| ==> idx[k] < |s| && UsernameChar(s[idx[k]])
    ensures forall k :: 0 <= k < |idx| ==> SanitizeUsername(s)[k] == Lower(s[idx[k]])
    ensures forall k, l :: 0 <= k < l < |idx| ==> idx[k] < idx[l]
  {
    if s == [] {
      idx := [];
    } else {
      var rest := SanitizePicks(s[1..]);
      var shifted := seq(|rest|, k requires 0 <= k < |rest| => rest[k] + 1);
      var tail := SanitizeUsername(s[1..]);
      SanitizeCons(s);
      var head := if UsernameChar(s[0]) then [0] else [];
      idx := head + shifted;
      var n := |head|;
      assert SanitizeUsername(s) == (if UsernameChar(s[0]) then [Lower(s[0])] else []) + tail;
      forall k | n <= k < |idx|
        ensures idx[k] == rest[k - n] + 1 && idx[k] < |s|
        ensures UsernameChar(s[idx[k]]) && SanitizeUsername(s)[k] == Lower(s[idx[k]])
      {
        assert idx[k] == shifted[k - n];
        assert s[1..][rest[k - n]] == s[idx[k]];
        assert SanitizeUsername(s)[k] == tail[k - n];
      }
    }
  }

  lemma SanitizeCons(s: string)
    requires s != []
    ensures SanitizeUsername(s) == (if UsernameChar(s[0]) then [Lower(s[0])] else []) + SanitizeUsername(s[1..])
  {
    var f := Filter(s[1..], UsernameChar);
    if UsernameChar(s[0]) {
      assert Filter(s, UsernameChar) == [s[0]] + f;
      assert LowerAll([s[0]] + f) == [Lower(s[0])] + LowerAll(f);
    } else {
      assert Filter(s, UsernameChar) == f;
    }
  }

  /** Sanitizing twice gives what sanitizing once gives. */
  lemma SanitizeIdempotent(s: string)
    ensures SanitizeUsername(SanitizeUsername(s)) == SanitizeUsername(s)
  {
    var r := SanitizeUsername(s);
    FilterKeepsAll(r, UsernameChar);
    assert LowerAll(r) == r;
  }

  /** A valid lower-case username is left as it is, and the sanitized form
      of any string is a valid username exactly when it has 3 to 20
      characters. */
  lemma SanitizeAndValidity(s: string)
    ensures IsValidUsername(s) && (forall k :: 0 <= k < |s| ==> !('A' <= s[k] <= 'Z')) ==> SanitizeUsername(s) == s
    ensures IsValidUsername(SanitizeUsername(s)) <==> 3 <= |SanitizeUsername(s)| <= 20
  {
    var r := SanitizeUsername(s);
    FilterKeepsAll(r, UsernameChar);
    if IsValidUsername(s) {
      FilterKeepsAll(s, UsernameChar);
    }
  }

  // ---------------------------------------------------------------------
  // calculateAge and isValidAge

  /** calculateAge: whole years from the birth date to today, one less when
      this year's birthday is still ahead. */
  function CalculateAge(today: Date, birth: Date): (age: int)
    ensures age == today.year - birth.year || age == today.year - birth.year - 1
  {
    var age := today.year - birth.year;
    var monthDiff := today.month - birth.month;
    if monthDiff < 0 || (monthDiff == 0 && today.day < birth.day) then age - 1 else age
  }

  /** Calendar order of dates. */
  predicate DateLe(a: Date, b: Date) {
    a.year < b.year || (a.year == b.year && (a.month < b.month || (a.month == b.month && a.day <= b.day)))
  }

  /** Someone is at least n years old exactly when their n-th birthday is
      on or before today. */
  lemma AgeMeansBirthday(today: Date, birth: Date, n: int)
    ensures CalculateAge(today, birth) >= n <==> DateLe(Date(birth.year + n, birth.month, birth.day), today)
  {
  }

  const MinimumAge := 18

  /** isValidAge: at least 18 years old today. */
  function IsValidAge(today: Date, birth: Date): (ok: bool)
    ensures ok <==> DateLe(Date(birth.year + MinimumAge, birth.month, birth.day), today)
  {
    AgeMeansBirthday(today, birth, MinimumAge);
    CalculateAge(today, birth) >= MinimumAge
  }

  /** Age never decreases as time goes on. */
  lemma AgeMonotone(earlier: Date, later: Date, birth: Date)
    requires DateLe(earlier, later)
    ensures CalculateAge(earlier, birth) <= CalculateAge(later, birth)
  {
  }
}
