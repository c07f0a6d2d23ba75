/** Small building blocks shared by every route and page of the restaurant
    platform: optional values, HTTP-style responses, JavaScript's `x || d`
    defaulting on request fields, order-preserving filtering, sorting by an
    integer key (Prisma's `orderBy: 'asc'`), ASCII case mapping and the
    decimal rendering of record ids. */
module Common {

  /** A value that may be absent: a missing request field, a lookup that
      found nothing, a nullable column. */
  datatype Option<T> = None | Some(value: T)

  /** What a route handler answers: a success status with a body, or an
      error status with the message the handler puts in `{ error }`. */
  datatype Response<T> = Ok(status: nat, body: T) | Error(status: nat, message: string)

  /** The answer every authenticated route gives without a session user. */
  function Unauthorized<T>(): (r: Response<T>)
    ensures r.Error? && r.status == 401
  {
    Error(401, "Unauthorized")
  }

  /** A string field is truthy in JavaScript when present and non-empty. */
  predicate Truthy(o: Option<string>)
  {
    o.Some? && o.value != ""
  }

  /** `field || ''`: a missing field becomes the empty string. */
  function OrEmpty(o: Option<string>): (r: string)
    ensures Truthy(o) ==> r == o.value
    ensures !Truthy(o) ==> r == ""
  {
    match o
    case None => ""
    case Some(v) => v
  }

  /** `field || null`: a missing or empty string becomes null. */
  function OrNull(o: Option<string>): (r: Option<string>)
    ensures r.Some? <==> Truthy(o)
    ensures r.Some? ==> r == o
  {
    if Truthy(o) then o else None
  }

  /** `field || fallback` on a string. */
  function OrElse(o: Option<string>, fallback: string): (r: string)
    ensures Truthy(o) ==> r == o.value
    ensures !Truthy(o) ==> r == fallback
  {
    if Truthy(o) then o.value else fallback
  }

  /** `field || 0` on a number: absent (or already zero) gives zero. */
  function OrZero(o: Option<int>): (r: int)
    ensures o.Some? ==> r == o.value
    ensures o.None? ==> r == 0
  {
    match o
    case None => 0
    case Some(v) => v
  }

  // ---------------------------------------------------------------------
  // Order-preserving filtering (`Array.prototype.filter`, a `where` clause)
  // ---------------------------------------------------------------------

  /** The elements of `s` that satisfy `p`, in their original order. */
  function Filter<T>(s: seq<T>, p: T -> bool): (r: seq<T>)
    ensures |r| <= |s|
    ensures forall i :: 0 <= i < |r| ==> r[i] in s && p(r[i])
    decreases |s|
  {
    if |s| == 0 then []
    else if p(s[0]) then [s[0]] + Filter(s[1..], p)
    else Filter(s[1..], p)
  }

  /** Nothing that passes the condition is dropped. */
  lemma {:induction false} FilterComplete<T>(s: seq<T>, p: T -> bool)
    ensures forall i :: 0 <= i < |s| && p(s[i]) ==> s[i] in Filter(s, p)
    decreases |s|
  {
    if |s| > 0 {
      FilterComplete(s[1..], p);
      forall i | 1 <= i < |s| && p(s[i])
        ensures s[i] in Filter(s, p)
      {
        assert s[i] == s[1..][i - 1];
      }
    }
  }

  /** Filtering distributes over concatenation: the kept elements of `a`
      come first, in order, followed by those of `b`. Together with the
      one-element case this pins down the order of the result. */
  lemma {:induction false} FilterAppend<T>(a: seq<T>, b: seq<T>, p: T -> bool)
    ensures Filter(a + b, p) == Filter(a, p) + Filter(b, p)
    decreases |a|
  {
    if |a| == 0 {
      assert a + b == b;
    } else {
      assert (a + b)[0] == a[0];
      assert (a + b)[1..] == a[1..] + b;
      FilterAppend(a[1..], b, p);
    }
  }

  /** A filter that every element passes returns its input unchanged. */
  lemma {:induction false} FilterKeepsAll<T>(s: seq<T>, p: T -> bool)
    requires forall i :: 0 <= i < |s| ==> p(s[i])
    ensures Filter(s, p) == s
    decreases |s|
  {
    if |s| > 0 {
      FilterKeepsAll(s[1..], p);
    }
  }

  /** Filtering by a weaker condition first and then by a stronger one is
      the same as filtering by the stronger one alone. */
  lemma {:induction false} FilterNarrow<T>(s: seq<T>, p: T -> bool, q: T -> bool)
    requires forall x :: q(x) ==> p(x)
    ensures Filter(Filter(s, p), q) == Filter(s, q)
    decreases |s|
  {
    if |s| > 0 {
      FilterNarrow(s[1..], p, q);
    }
  }

  /** Filtering by `p` and then by `t` is filtering by `q` when `q` holds
      exactly of the elements that pass both. */
  lemma {:induction false} FilterCompose<T>(s: seq<T>, p: T -> bool, t: T -> bool, q: T -> bool)
    requires forall x :: q(x) ==> p(x)
    requires forall x :: p(x) ==> t(x) == q(x)
    ensures Filter(Filter(s, p), t) == Filter(s, q)
    decreases |s|
  {
    if |s| > 0 {
      FilterCompose(s[1..], p, t, q);
    }
  }

  /** Filtering keeps every copy of a passing element and no copy of a
      failing one. */
  lemma {:induction false} FilterMultiplicity<T>(s: seq<T>, p: T -> bool)
    ensures forall x :: multiset(Filter(s, p))[x] == if p(x) then multiset(s)[x] else 0
    decreases |s|
  {
    if |s| > 0 {
      FilterMultiplicity(s[1..], p);
      assert s == [s[0]] + s[1..];
      assert multiset(s) == multiset{s[0]} + multiset(s[1..]);
    }
  }

  /** A stronger condition keeps no more elements than a weaker one. */
  lemma {:induction false} FilterShrinks<T>(s: seq<T>, p: T -> bool, q: T -> bool)
    requires forall x :: q(x) ==> p(x)
    ensures |Filter(s, q)| <= |Filter(s, p)|
  {
    FilterNarrow(s, p, q);
  }

  /** Two conditions that agree on every element filter alike. */
  lemma {:induction false} FilterSameOn<T>(s: seq<T>, p: T -> bool, q: T -> bool)
    requires forall i :: 0 <= i < |s| ==> p(s[i]) == q(s[i])
    ensures Filter(s, p) == Filter(s, q)
    decreases |s|
  {
    if |s| > 0 {
      FilterSameOn(s[1..], p, q);
    }
  }

  /** Filtering a sequence is filtering its three parts around index `i`. */
  lemma {:induction false} FilterSplitAt<T>(s: seq<T>, i: nat, p: T -> bool)
    requires i < |s|
    ensures Filter(s, p) == Filter(s[..i], p) + Filter([s[i]], p) + Filter(s[i + 1..], p)
  {
    SplitAround(s, i);
    FilterAround(s[..i], s[i], s[i + 1..], p);
  }

  lemma {:induction false} SplitAround<T>(s: seq<T>, i: nat)
    requires i < |s|
    ensures s == s[..i] + [s[i]] + s[i + 1..]
  {
  }

  lemma {:induction false} FilterAround<T>(a: seq<T>, x: T, b: seq<T>, p: T -> bool)
    ensures Filter(a + [x] + b, p) == Filter(a, p) + Filter([x], p) + Filter(b, p)
  {
    FilterAppend(a + [x], b, p);
    FilterAppend(a, [x], p);
  }

  /** Overwriting the element at index `i` with one that fails the
      condition drops that position from the result. */
  lemma {:induction false} FilterOverwriteFailing<T>(s: seq<T>, i: nat, x: T, p: T -> bool)
    requires i < |s| && !p(x)
    ensures Filter(s[i := x], p) == Filter(s[..i], p) + Filter(s[i + 1..], p)
  {
    var s' := s[i := x];
    FilterSplitAt(s', i, p);
    assert s'[..i] == s[..i];
    assert s'[i + 1..] == s[i + 1..];
    assert Filter([x], p) == [];
  }

  // ---------------------------------------------------------------------
  // Sorting by an integer key (`orderBy: { key: 'asc' }`)
  // ---------------------------------------------------------------------

  predicate SortedBy<T>(s: seq<T>, key: T -> int)
  {
    forall i, j :: 0 <= i < j < |s| ==> key(s[i]) <= key(s[j])
  }

  /** Insert `x` into the sorted `s` before the first element whose key is
      not smaller. */
  function InsertBy<T>(x: T, s: seq<T>, key: T -> int): (r: seq<T>)
    requires SortedBy(s, key)
    ensures SortedBy(r, key)
    ensures multiset(r) == multiset(s) + multiset{x}
    decreases |s|
  {
    if |s| == 0 then [x]
    else if key(x) <= key(s[0]) then [x] + s
    else
      var rest := InsertBy(x, s[1..], key);
      assert s == [s[0]] + s[1..];
      InsertedAboveHead(x, s, key, rest);
      [s[0]] + rest
  }

  /** Every element of the insertion into the tail of a sorted `s` has a
      key no smaller than the head's, when `x`'s key is larger. */
  lemma {:induction false} InsertedAboveHead<T>(x: T, s: seq<T>, key: T -> int, rest: seq<T>)
    requires SortedBy(s, key) && |s| > 0 && key(s[0]) < key(x)
    requires multiset(rest) == multiset(s[1..]) + multiset{x}
    ensures forall i :: 0 <= i < |rest| ==> key(s[0]) <= key(rest[i])
  {
    forall i | 0 <= i < |rest|
      ensures key(s[0]) <= key(rest[i])
    {
      assert rest[i] in multiset(rest);
      if rest[i] != x {
        assert rest[i] in multiset(s[1..]);
        var j :| 0 <= j < |s[1..]| && s[1..][j] == rest[i];
        assert s[j + 1] == rest[i];
      }
    }
  }

  /** Ascending order by `key`; elements with equal keys keep their
      relative order. */
  function SortBy<T>(s: seq<T>, key: T -> int): (r: seq<T>)
    ensures SortedBy(r, key)
    ensures multiset(r) == multiset(s)
    decreases |s|
  {
    if |s| == 0 then []
    else
      assert s == [s[0]] + s[1..];
      InsertBy(s[0], SortBy(s[1..], key), key)
  }

  /** Sorting keeps exactly the elements it was given. */
  lemma {:induction false} SortByMembers<T>(s: seq<T>, key: T -> int)
    ensures forall x :: x in SortBy(s, key) <==> x in s
    ensures |SortBy(s, key)| == |s|
  {
    var r := SortBy(s, key);
    assert multiset(r) == multiset(s);
    assert |r| == |multiset(r)|;
    forall x
      ensures x in r <==> x in s
    {
      assert x in r <==> x in multiset(r);
      assert x in s <==> x in multiset(s);
    }
  }

  // ---------------------------------------------------------------------
  // ASCII case mapping (`toLowerCase` / `toUpperCase` on ASCII letters)
  // ---------------------------------------------------------------------

  predicate IsUpper(c: char) { 'A' <= c <= 'Z' }
  predicate IsLower(c: char) { 'a' <= c <= 'z' }
  predicate IsDigit(c: char) { '0' <= c <= '9' }

  function LowerChar(c: char): (r: char)
    ensures IsUpper(c) ==> IsLower(r) && r as int == c as int + 32
    ensures !IsUpper(c) ==> r == c
  {
    if IsUpper(c) then (c as int + 32) as char else c
  }

  function UpperChar(c: char): (r: char)
    ensures IsLower(c) ==> IsUpper(r) && r as int == c as int - 32
    ensures !IsLower(c) ==> r == c
  {
    if IsLower(c) then (c as int - 32) as char else c
  }

  function Lower(s: string): (r: string)
    ensures |r| == |s|
    ensures forall i :: 0 <= i < |s| ==> r[i] == LowerChar(s[i])
  {
    if |s| == 0 then "" else [LowerChar(s[0])] + Lower(s[1..])
  }

  // ---------------------------------------------------------------------
  // Decimal rendering of ids (template-literal interpolation of an id)
  // ---------------------------------------------------------------------

  function DigitChar(d: nat): (c: char)
    requires d < 10
    ensures IsDigit(c)
  {
    ('0' as int + d) as char
  }

  function DecimalString(n: nat): (r: string)
    ensures |r| > 0
    ensures forall i :: 0 <= i < |r| ==> IsDigit(r[i])
  {
    if n < 10 then [DigitChar(n)] else DecimalString(n / 10) + [DigitChar(n % 10)]
  }

  function DigitValue(c: char): (d: nat)
    requires IsDigit(c)
    ensures d < 10
  {
    c as int - '0' as int
  }

  /** The number a string of decimal digits spells (`parseInt` on digits). */
  function DecimalValue(s: string): (n: nat)
    requires forall i :: 0 <= i < |s| ==> IsDigit(s[i])
  {
    if |s| == 0 then 0
    else DecimalValue(s[..|s| - 1]) * 10 + DigitValue(s[|s| - 1])
  }

  /** Reading back a rendered number gives the number. */
  lemma {:induction false} DecimalRoundTrip(n: nat)
    ensures DecimalValue(DecimalString(n)) == n
    decreases n
  {
    if n >= 10 {
      var prefix := DecimalString(n / 10);
      DecimalRoundTrip(n / 10);
      assert (prefix + [DigitChar(n % 10)])[..|prefix|] == prefix;
    }
  }

  /** Different numbers render differently. */
  lemma {:induction false} DecimalStringInjective(a: nat, b: nat)
    ensures DecimalString(a) == DecimalString(b) ==> a == b
  {
    DecimalRoundTrip(a);
    DecimalRoundTrip(b);
  }
}
