/** Values and helpers shared by every part of the model: optional and
    failure-carrying results, the claims of a verified access token, calendar
    dates, JavaScript string semantics the source relies on (default sort
    order, truthiness, `trim`, `substring`) and a stable descending sort. */
module Common {

  datatype Option<T> = None | Some(value: T)

  datatype Result<T, E> = Ok(value: T) | Err(error: E)

  /** The payload of a verified access token (utils/jwt.ts, JWTPayload). */
  datatype Claims = Claims(
    userId: string,
    email: Option<string>,
    phoneNumber: Option<string>,
    role: string,
    isHost: bool,
    agencyId: Option<string>)

  /** A calendar date as JavaScript's Date getters see it: month is 0..11. */
  datatype Date = Date(year: int, month: int, day: int)

  /** JavaScript truthiness of an optional string: absent and "" are falsy. */
  predicate Truthy(s: Option<string>) {
    s.Some? && s.value != ""
  }

  /** JavaScript truthiness of an optional number: absent and 0 are falsy. */
  predicate TruthyInt(n: Option<int>) {
    n.Some? && n.value != 0
  }

  // ---------------------------------------------------------------------
  // Strings

  /** The order used by Array.prototype.sort with no comparator, taken
      character by character (a Dafny char is a Unicode scalar value, where
      the sort compares UTF-16 code units), a proper prefix first. */
  predicate LexLe(a: string, b: string) {
    if a == [] then true
    else if b == [] then false
    else if a[0] != b[0] then a[0] < b[0]
    else LexLe(a[1..], b[1..])
  }

  lemma {:induction false} LexLeTotal(a: string, b: string)
    ensures LexLe(a, b) || LexLe(b, a)
  {
    if a != [] && b != [] && a[0] == b[0] {
      LexLeTotal(a[1..], b[1..]);
    }
  }

  lemma {:induction false} LexLeAntisymmetric(a: string, b: string)
    requires LexLe(a, b) && LexLe(b, a)
    ensures a == b
  {
    if a != [] && b != [] {
      LexLeAntisymmetric(a[1..], b[1..]);
      assert a == [a[0]] + a[1..];
      assert b == [b[0]] + b[1..];
    }
  }

  /** The characters String.prototype.trim removes and `\s` matches:
      ECMAScript WhiteSpace and LineTerminator code points. */
  predicate IsWhitespace(c: char) {
    c == '\t' || c == '\n' || c == '\U{000B}' || c == '\U{000C}' || c == '\r' || c == ' '
    || c == '\U{00A0}' || c == '\U{1680}' || ('\U{2000}' <= c <= '\U{200A}')
    || c == '\U{2028}' || c == '\U{2029}' || c == '\U{202F}' || c == '\U{205F}'
    || c == '\U{3000}' || c == '\U{FEFF}'
  }

  /** String.prototype.trim: the slice of s between a leading and a
      trailing run of whitespace. */
  function Trim(s: string): (r: string)
    ensures |r| <= |s|
    ensures r != [] ==> !IsWhitespace(r[0]) && !IsWhitespace(r[|r| - 1])
    ensures (forall i :: 0 <= i < |s| ==> IsWhitespace(s[i])) <==> r == []
    ensures exists i, j :: (0 <= i <= j <= |s| && r == s[i..j]
                            && (forall k :: 0 <= k < i ==> IsWhitespace(s[k]))
                            && (forall k :: j <= k < |s| ==> IsWhitespace(s[k])))
  {
    var i := LeadingRun(s);
    var j := if i == |s| then |s| else |s| - TrailingRun(s);
    assert i == |s| ==> !(exists k :: 0 <= k < |s| && !IsWhitespace(s[k]));
    assert i < |s| ==> IsWhitespace(s[|s| - 1]) ==> TrailingRun(s) > 0;
    s[i..j]
  }

  /** The length of the whitespace run that starts s. */
  function LeadingRun(s: string): (n: nat)
    ensures n <= |s|
    ensures forall k :: 0 <= k < n ==> IsWhitespace(s[k])
    ensures n < |s| ==> !IsWhitespace(s[n])
  {
    if s != [] && IsWhitespace(s[0]) then 1 + LeadingRun(s[1..]) else 0
  }

  /** The length of the whitespace run that ends s. */
  function TrailingRun(s: string): (n: nat)
    ensures n <= |s|
    ensures forall k :: |s| - n <= k < |s| ==> IsWhitespace(s[k])
    ensures n < |s| ==> !IsWhitespace(s[|s| - n - 1])
  {
    if s != [] && IsWhitespace(s[|s| - 1]) then 1 + TrailingRun(s[..|s| - 1]) else 0
  }

  /** String.prototype.substring(0, n) for n >= 0. */
  function Prefix(s: string, n: nat): (r: string)
    ensures |r| == if |s| <= n then |s| else n
    ensures r == s[..|r|]
  {
    if |s| <= n then s else s[..n]
  }

  /** The decimal digit character of d. */
  function Digit(d: nat): (c: char)
    requires d < 10
    ensures '0' <= c <= '9'
  {
    "0123456789"[d]
  }

  /** Number.prototype.toString() of a natural number: its decimal digits,
      most significant first, with no leading zero. */
  function Decimal(n: nat): (s: string)
    ensures s != []
    ensures forall i :: 0 <= i < |s| ==> '0' <= s[i] <= '9'
    ensures |s| > 1 ==> s[0] != '0'
  {
    if n < 10 then [Digit(n)] else Decimal(n / 10) + [Digit(n % 10)]
  }

  function Pow10(k: nat): (p: nat)
    ensures p >= 1
  {
    if k == 0 then 1 else 10 * Pow10(k - 1)
  }

  /** A number with k digits is written with k characters. */
  lemma {:induction false} DecimalLength(n: nat, k: nat)
    requires k >= 1
    requires Pow10(k - 1) <= n < Pow10(k)
    ensures |Decimal(n)| == k
  {
    if k > 1 {
      DecimalLength(n / 10, k - 1);
    }
  }

  /** The number a string of decimal digits denotes (parseInt). */
  function DigitsValue(s: string): nat
    requires forall i :: 0 <= i < |s| ==> '0' <= s[i] <= '9'
  {
    if s == [] then 0 else DigitsValue(s[..|s| - 1]) * 10 + (s[|s| - 1] as int - '0' as int)
  }

  /** Reading back what Decimal writes gives the number written. */
  lemma {:induction false} DecimalRoundTrip(n: nat)
    ensures DigitsValue(Decimal(n)) == n
  {
    if n >= 10 {
      DecimalRoundTrip(n / 10);
      var s := Decimal(n);
      assert s[..|s| - 1] == Decimal(n / 10);
    }
  }

  /** A string that is not among `used`: one character longer than the
      longest of them (the store's generated identifiers). */
  method FreshId(used: set<string>) returns (id: string)
    ensures id !in used
  {
    var longest: nat := 0;
    var rest := used;
    while rest != {}
      invariant forall u :: u in used && u !in rest ==> |u| <= longest
      invariant rest <= used
      decreases rest
    {
      var u :| u in rest;
      if |u| > longest {
        longest := |u|;
      }
      rest := rest - {u};
    }
    id := seq(longest + 1, _ => 'x');
  }

  /** `parseInt(q) || d`: an absent, unparseable or zero query parameter
      falls back to the default, any other value is used as given. */
  function OrDefault(q: Option<nat>, default: nat): (n: nat)
    ensures q.Some? && q.value != 0 ==> n == q.value
    ensures q.None? || q.value == 0 ==> n == default
  {
    if q.Some? && q.value != 0 then q.value else default
  }

  /** The elements satisfying p, in order (a `where` clause, or
      Array.prototype.filter). */
  function Filter<T>(s: seq<T>, p: T -> bool): (r: seq<T>)
    ensures |r| <= |s|
    ensures forall k :: 0 <= k < |r| ==> p(r[k])
  {
    if s == [] then [] else (if p(s[0]) then [s[0]] else []) + Filter(s[1..], p)
  }

  lemma {:induction false} FilterMembers<T>(s: seq<T>, p: T -> bool)
    ensures forall x :: x in Filter(s, p) <==> x in s && p(x)
  {
    if s != [] {
      FilterMembers(s[1..], p);
      assert s == [s[0]] + s[1..];
    }
  }

  /** Keeping only the elements that pass changes nothing when all pass. */
  lemma {:induction false} FilterKeepsAll<T>(s: seq<T>, p: T -> bool)
    requires forall k :: 0 <= k < |s| ==> p(s[k])
    ensures Filter(s, p) == s
  {
    if s != [] {
      FilterKeepsAll(s[1..], p);
    }
  }

  /** Filtering a concatenation filters each part, in order. */
  lemma {:induction false} FilterAppend<T>(a: seq<T>, b: seq<T>, p: T -> bool)
    ensures Filter(a + b, p) == Filter(a, p) + Filter(b, p)
  {
    if a != [] {
      FilterAppend(a[1..], b, p);
      assert (a + b)[1..] == a[1..] + b;
    } else {
      assert a + b == b;
    }
  }

  /** No element occurs twice. */
  predicate Distinct<T(==)>(s: seq<T>) {
    forall i, j :: 0 <= i < j < |s| ==> s[i] != s[j]
  }

  /** A sequence has no repeats exactly when no element is counted twice. */
  lemma {:induction false} DistinctCounts<T>(s: seq<T>)
    ensures Distinct(s) <==> forall x :: multiset(s)[x] <= 1
  {
    if s != [] {
      var t := s[1..];
      DistinctCounts(t);
      assert s == [s[0]] + t;
      if Distinct(s) {
        assert Distinct(t) by {
          forall i, j | 0 <= i < j < |t| ensures t[i] != t[j] {
            assert t[i] == s[i + 1] && t[j] == s[j + 1];
          }
        }
      }
      if forall x :: multiset(s)[x] <= 1 {
        assert multiset(s)[s[0]] == 1 + multiset(t)[s[0]];
        assert s[0] !in t;
        assert forall x :: multiset(t)[x] <= multiset(s)[x];
        forall i, j | 0 <= i < j < |s| ensures s[i] != s[j] {
          assert s[j] == t[j - 1];
          if i > 0 {
            assert s[i] == t[i - 1];
          }
        }
      }
    }
  }

  /** Reordering keeps a sequence free of repeats. */
  lemma DistinctPermutation<T>(s: seq<T>, t: seq<T>)
    requires multiset(s) == multiset(t) && Distinct(s)
    ensures Distinct(t)
  {
    DistinctCounts(s);
    DistinctCounts(t);
  }

  /** The index of the first element satisfying p, as Array.prototype.find
      and Prisma's findFirst (in storage order) locate it. */
  function FirstIndex<T>(s: seq<T>, p: T -> bool): (r: Option<nat>)
    ensures r.Some? ==> r.value < |s| && p(s[r.value])
    ensures r.Some? ==> forall k :: 0 <= k < r.value ==> !p(s[k])
    ensures r.None? ==> forall k :: 0 <= k < |s| ==> !p(s[k])
  {
    if s == [] then None
    else if p(s[0]) then Some(0)
    else match FirstIndex(s[1..], p)
      case None => None
      case Some(i) => Some(i + 1)
  }

  // ---------------------------------------------------------------------
  // Stable sort by a numeric key, largest first

  ghost predicate SortedDesc<T>(s: seq<T>, key: T -> int) {
    forall i, j :: 0 <= i < j < |s| ==> key(s[i]) >= key(s[j])
  }

  /** Inserts x before the first element whose key is not larger, so an
      element inserted earlier stays ahead of later equal-keyed ones. */
  function InsertDesc<T>(x: T, s: seq<T>, key: T -> int): (r: seq<T>)
    ensures |r| == |s| + 1
  {
    if s == [] || key(x) >= key(s[0]) then [x] + s
    else [s[0]] + InsertDesc(x, s[1..], key)
  }

  lemma {:induction false} InsertDescPermutes<T>(x: T, s: seq<T>, key: T -> int)
    ensures multiset(InsertDesc(x, s, key)) == multiset(s) + multiset{x}
  {
    if s != [] && key(x) < key(s[0]) {
      InsertDescPermutes(x, s[1..], key);
      assert s == [s[0]] + s[1..];
    }
  }

  lemma {:induction false} InsertDescSorted<T>(x: T, s: seq<T>, key: T -> int)
    requires SortedDesc(s, key)
    ensures SortedDesc(InsertDesc(x, s, key), key)
  {
    if s != [] && key(x) < key(s[0]) {
      InsertDescSorted(x, s[1..], key);
      var tail := InsertDesc(x, s[1..], key);
      InsertDescPermutes(x, s[1..], key);
      var r := [s[0]] + tail;
      assert r == InsertDesc(x, s, key);
      forall j | 0 < j < |r| ensures key(r[0]) >= key(r[j]) {
        assert r[j] == tail[j - 1];
        assert r[j] in multiset(tail);
        if r[j] != x {
          assert r[j] in multiset(s[1..]);
          var i :| 0 <= i < |s[1..]| && s[1..][i] == r[j];
          assert s[1..][i] == s[i + 1];
        }
      }
    }
  }

  /** Insertion sort by key, descending; stable like Array.prototype.sort. */
  function SortDescBy<T>(s: seq<T>, key: T -> int): (r: seq<T>)
    ensures |r| == |s|
  {
    if s == [] then [] else InsertDesc(s[0], SortDescBy(s[1..], key), key)
  }

  /** The sort orders its output by key, largest first. */
  lemma {:induction false} SortDescBySorted<T>(s: seq<T>, key: T -> int)
    ensures SortedDesc(SortDescBy(s, key), key)
  {
    if s != [] {
      SortDescBySorted(s[1..], key);
      InsertDescSorted(s[0], SortDescBy(s[1..], key), key);
    }
  }

  /** The sort only reorders: it is a permutation of its input. */
  lemma {:induction false} SortDescByPermutes<T>(s: seq<T>, key: T -> int)
    ensures multiset(SortDescBy(s, key)) == multiset(s)
  {
    if s != [] {
      SortDescByPermutes(s[1..], key);
      InsertDescPermutes(s[0], SortDescBy(s[1..], key), key);
      assert s == [s[0]] + s[1..];
    }
  }

  /** Every element of the sorted sequence comes from the input. */
  lemma SortDescByMembers<T>(s: seq<T>, key: T -> int)
    ensures forall k :: 0 <= k < |s| ==> SortDescBy(s, key)[k] in s
  {
    SortDescByPermutes(s, key);
    var r := SortDescBy(s, key);
    forall k | 0 <= k < |s| ensures r[k] in s {
      assert r[k] in multiset(r);
    }
  }

  function Reverse<T>(s: seq<T>): (r: seq<T>)
    ensures |r| == |s|
  {
    if s == [] then [] else Reverse(s[1..]) + [s[0]]
  }

  /** The i-th element of a reversal is the i-th from the end. */
  lemma {:induction false} ReverseAt<T>(s: seq<T>)
    ensures forall i :: 0 <= i < |s| ==> Reverse(s)[i] == s[|s| - 1 - i]
  {
    if s != [] {
      ReverseAt(s[1..]);
    }
  }

  /** The first n elements, or all when there are fewer (a query's `take`). */
  function Take<T>(s: seq<T>, n: nat): (r: seq<T>)
    ensures |r| == if n < |s| then n else |s|
    ensures r == s[..|r|]
  {
    if n < |s| then s[..n] else s
  }

  /** Reversing the first k elements of a reversal gives the last k. */
  lemma {:induction false} ReverseOfReversedPrefix<T>(c: seq<T>, k: nat)
    requires k <= |c|
    ensures Reverse(Reverse(c)[..k]) == c[|c| - k..]
  {
    var r := Reverse(c);
    var p := r[..k];
    var q := Reverse(p);
    ReverseAt(c);
    ReverseAt(p);
    forall i | 0 <= i < k ensures q[i] == c[|c| - k + i] {
      assert q[i] == p[k - 1 - i];
      assert p[k - 1 - i] == r[k - 1 - i];
    }
  }

  /** The end of a prefix followed by the rest of the sequence is a suffix. */
  lemma {:induction false} SplitSuffix<T>(s: seq<T>, front: seq<T>, back: seq<T>, j: nat)
    requires j <= |s|
    requires back == s[j..]
    requires |front| <= j && front == s[..j][j - |front|..]
    ensures front + back == s[j - |front|..]
  {
    assert forall i :: 0 <= i < |front| ==> front[i] == s[j - |front| + i];
  }

  lemma {:induction false} InsertDescAtEnd<T>(x: T, s: seq<T>, key: T -> int)
    requires forall k :: 0 <= k < |s| ==> key(s[k]) > key(x)
    ensures InsertDesc(x, s, key) == s + [x]
  {
    if s != [] {
      InsertDescAtEnd(x, s[1..], key);
      assert s == [s[0]] + s[1..];
    }
  }

  /** A sequence already strictly ascending by key comes out reversed. */
  lemma {:induction false} SortDescOfAscending<T>(s: seq<T>, key: T -> int)
    requires forall i, j :: 0 <= i < j < |s| ==> key(s[i]) < key(s[j])
    ensures SortDescBy(s, key) == Reverse(s)
  {
    if s != [] {
      SortDescOfAscending(s[1..], key);
      var t := Reverse(s[1..]);
      ReverseAt(s[1..]);
      assert forall k :: 0 <= k < |t| ==> key(t[k]) > key(s[0]) by {
        forall k | 0 <= k < |t| ensures key(t[k]) > key(s[0]) {
          assert t[k] == s[1..][|s| - 2 - k] == s[|s| - 1 - k];
        }
      }
      InsertDescAtEnd(s[0], t, key);
    }
  }
}
