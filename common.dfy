/** Shared vocabulary of the model: optional values, results carrying the
    exception a handler would raise, and the sequence and string operations
    the sources use (slicing into chunks, set-difference of arrays,
    de-duplication, splitting on a separator, case-insensitive comparison,
    decimal rendering of counters). */
module Common {

  datatype Option<+T> = None | Some(value: T) {
    function GetOr(default: T): T {
      match this
      case Some(v) => v
      case None => default
    }
  }

  /** The exceptions the modelled code raises or lets escape. */
  datatype Error =
    | IncorrectConfiguration(msg: string)   // IncorrectConfigurationException
    | UnsupportedQuota(msg: string)         // UnsupportedQuotaException
    | TypeError(msg: string)                // property access on undefined, str + int
    | KeyError(key: string)                 // Python dict lookup of a missing key
    | NameError(name: string)               // Python read of a local that was never bound
    | IndexError                            // Python index past the end of a list
    | ZeroDivision                          // Python float division by zero
    | ServiceError(name: string)            // an exception thrown by an AWS SDK call
    | SyntaxError(msg: string)              // JSON.parse of text that is not JSON

  datatype Result<+T> = Ok(value: T) | Err(error: Error) {
    predicate IsFailure() { Err? }
    function PropagateFailure<U>(): Result<U>
      requires Err?
    {
      Err(error)
    }
    function Extract(): T
      requires Ok?
    {
      value
    }
  }

  /** Outcome of an operation that returns nothing but may throw. */
  datatype Outcome = Pass | Fail(error: Error) {
    predicate IsFailure() { Fail? }
    function PropagateFailure<U>(): Result<U>
      requires Fail?
    {
      Err(error)
    }
  }

  // ---------------------------------------------------------------------
  // Sequences
  // ---------------------------------------------------------------------

  function Min(a: int, b: int): int { if a <= b then a else b }

  lemma MulAtLeast(k: int, n: int)
    requires k >= 1 && n > 0
    ensures k * n >= n
    decreases k
  {
    if k > 1 { MulAtLeast(k - 1, n); assert k * n == (k - 1) * n + n; }
  }
  lemma DivUnique(a: int, n: int, q: int, r: int)
    requires n > 0 && 0 <= r < n && a == q * n + r
    ensures a / n == q
  {
    var q' := a / n;
    var r' := a % n;
    assert a == q' * n + r';
    assert (q - q') * n == r' - r;
    if q > q' { MulAtLeast(q - q', n); }
    if q < q' { assert (q' - q) * n == r - r'; MulAtLeast(q' - q, n); }
  }
  lemma DivStep(x: int, n: int) requires n > 0 && x >= 0 ensures (x + n) / n == x / n + 1 {
    assert x == (x / n) * n + x % n;
    assert x + n == (x / n + 1) * n + x % n;
    DivUnique(x + n, n, x / n + 1, x % n);
  }
  lemma DivOne(x: int, n: int) requires n > 0 && n <= x < 2 * n ensures x / n == 1 {
    DivUnique(x, n, 1, x - n);
  }

  function Flatten<T>(ss: seq<seq<T>>): seq<T> {
    if |ss| == 0 then [] else ss[0] + Flatten(ss[1..])
  }

  /** Flattening after appending one more sequence. */
  lemma FlattenSnoc<T>(ss: seq<seq<T>>, x: seq<T>)
    ensures Flatten(ss + [x]) == Flatten(ss) + x
  {
    FlattenAppend(ss, [x]);
    assert Flatten([x]) == x + Flatten([]);
  }

  /** Flattening one more element of a prefix. */
  lemma FlattenPrefixStep<T>(ss: seq<seq<T>>, i: nat)
    requires i < |ss|
    ensures Flatten(ss[..i + 1]) == Flatten(ss[..i]) + ss[i]
  {
    assert ss[..i + 1] == ss[..i] + [ss[i]];
    FlattenSnoc(ss[..i], ss[i]);
  }

  /** Concatenation is associative. */
  lemma AppendAssoc<T>(a: seq<T>, b: seq<T>, c: seq<T>)
    ensures a + b + c == a + (b + c)
  {
  }

  lemma FlattenAppend<T>(a: seq<seq<T>>, b: seq<seq<T>>)
    ensures Flatten(a + b) == Flatten(a) + Flatten(b)
  {
    if |a| == 0 {
      assert a + b == b;
    } else {
      assert (a + b)[1..] == a[1..] + b;
      FlattenAppend(a[1..], b);
    }
  }

  /** `array.slice(i, i + n)` for i = 0, n, 2n, ... while i < |s|: the
      reference meaning of chunking an array. */
  function Chunks<T>(s: seq<T>, n: nat): seq<seq<T>>
    requires n > 0
    decreases |s|
  {
    if |s| == 0 then []
    else if |s| <= n then [s]
    else [s[..n]] + Chunks(s[n..], n)
  }

  /** Concatenating the chunks gives back the input exactly. */
  lemma {:induction false} FlattenChunks<T>(s: seq<T>, n: nat)
    requires n > 0
    ensures Flatten(Chunks(s, n)) == s
    decreases |s|
  {
    if |s| == 0 {
    } else if |s| <= n {
      assert Flatten(Chunks(s, n)) == s + Flatten<T>([]);
    } else {
      FlattenChunks(s[n..], n);
      var c := Chunks(s, n);
      assert c == [s[..n]] + Chunks(s[n..], n);
      assert c[1..] == Chunks(s[n..], n);
      assert Flatten(c) == s[..n] + s[n..];
      assert s[..n] + s[n..] == s;
    }
  }

  /** There are ceil(|s| / n) chunks (none for an empty input). */
  lemma {:induction false} ChunkCount<T>(s: seq<T>, n: nat)
    requires n > 0
    ensures |Chunks(s, n)| == (|s| + n - 1) / n
    decreases |s|
  {
    if |s| == 0 {
    } else if |s| <= n {
      DivOne(|s| + n - 1, n);
    } else {
      ChunkCount(s[n..], n);
      assert |Chunks(s, n)| == 1 + |Chunks(s[n..], n)|;
      assert |s| + n - 1 == (|s[n..]| + n - 1) + n;
      DivStep(|s[n..]| + n - 1, n);
    }
  }

  /** Every chunk but the last holds exactly n items, the last holds 1..n,
      and there are ceil(|s| / n) chunks (none for an empty input). */
  lemma {:induction false} ChunkSizes<T>(s: seq<T>, n: nat)
    requires n > 0
    ensures var c := Chunks(s, n);
      && |c| == (|s| + n - 1) / n
      && (forall k :: 0 <= k < |c| - 1 ==> |c[k]| == n)
      && (|c| > 0 ==> 1 <= |c[|c| - 1]| <= n)
    decreases |s|
  {
    ChunkCount(s, n);
    if n < |s| {
      ChunkSizes(s[n..], n);
      var c := Chunks(s, n);
      var t := Chunks(s[n..], n);
      assert c == [s[..n]] + t;
      forall k | 0 <= k < |c| - 1
        ensures |c[k]| == n
      {
        if k > 0 { assert c[k] == t[k - 1]; }
      }
    }
  }

  /** Every chunk holds 1..n items. */
  lemma ChunkBounds<T>(s: seq<T>, n: nat)
    requires n > 0
    ensures forall c :: c in Chunks(s, n) ==> 1 <= |c| <= n
  {
    ChunkSizes(s, n);
    var cs := Chunks(s, n);
    forall c | c in cs ensures 1 <= |c| <= n {
      var k :| 0 <= k < |cs| && cs[k] == c;
    }
  }

  /** `arrayDiff(a, b)`: the items of a that are not in b, in a's order. */
  function Diff<T(==)>(a: seq<T>, b: seq<T>): seq<T> {
    if |a| == 0 then []
    else if a[0] in b then Diff(a[1..], b)
    else [a[0]] + Diff(a[1..], b)
  }

  lemma {:induction false} DiffMembership<T>(a: seq<T>, b: seq<T>)
    ensures forall x :: x in Diff(a, b) <==> x in a && x !in b
  {
    if |a| > 0 {
      DiffMembership(a[1..], b);
      assert forall x :: x in a <==> x == a[0] || x in a[1..];
    }
  }

  /** Spread of a `Set` built from a sequence: each item once, first
      occurrence order. */
  function Dedup<T(==)>(s: seq<T>): seq<T> {
    DedupAfter(s, [])
  }

  function DedupAfter<T(==)>(s: seq<T>, seen: seq<T>): seq<T>
    decreases |s|
  {
    if |s| == 0 then []
    else if s[0] in seen then DedupAfter(s[1..], seen)
    else [s[0]] + DedupAfter(s[1..], seen + [s[0]])
  }

  predicate NoDuplicates<T(==)>(s: seq<T>) {
    forall i, j :: 0 <= i < j < |s| ==> s[i] != s[j]
  }

  lemma {:induction false} DedupAfterSpec<T>(s: seq<T>, seen: seq<T>)
    ensures forall x :: x in DedupAfter(s, seen) <==> x in s && x !in seen
    ensures NoDuplicates(DedupAfter(s, seen))
    decreases |s|
  {
    if |s| > 0 {
      DedupAfterSpec(s[1..], seen + [s[0]]);
      DedupAfterSpec(s[1..], seen);
      assert forall x :: x in s <==> x == s[0] || x in s[1..];
      if s[0] !in seen {
        var r := DedupAfter(s, seen);
        var t := DedupAfter(s[1..], seen + [s[0]]);
        assert r == [s[0]] + t;
        assert s[0] !in t;
        forall i, j | 0 <= i < j < |r|
          ensures r[i] != r[j]
        {
          if i == 0 { assert r[j] == t[j - 1]; } else { assert r[i] == t[i - 1] && r[j] == t[j - 1]; }
        }
      }
    }
  }

  /** The de-duplicated sequence holds every item of the input exactly once. */
  lemma DedupSpec<T>(s: seq<T>)
    ensures forall x :: x in Dedup(s) <==> x in s
    ensures NoDuplicates(Dedup(s))
  {
    DedupAfterSpec(s, []);
  }

  // ---------------------------------------------------------------------
  // Strings
  // ---------------------------------------------------------------------

  /** ASCII lower-casing of one character. */
  function LowerChar(c: char): char {
    if 'A' <= c <= 'Z' then (c as int + 32) as char else c
  }

  /** `s.toLowerCase()` restricted to ASCII letters. */
  function Lower(s: string): (r: string)
    ensures |r| == |s|
    ensures forall i :: 0 <= i < |s| ==> r[i] == LowerChar(s[i])
  {
    if |s| == 0 then "" else [LowerChar(s[0])] + Lower(s[1..])
  }

  /** Case-insensitive equality (`stringEqualsIgnoreCase`). */
  predicate EqualsIgnoreCase(a: string, b: string) {
    Lower(a) == Lower(b)
  }

  /** Case-insensitive membership (`arrayIncludesIgnoreCase`). */
  predicate IncludesIgnoreCase(xs: seq<string>, x: string) {
    exists i :: 0 <= i < |xs| && EqualsIgnoreCase(xs[i], x)
  }

  /** Position of the first occurrence of c in s. */
  function IndexOf(s: string, c: char): (r: nat)
    requires c in s
    ensures r < |s| && s[r] == c && c !in s[..r]
  {
    if s[0] == c then 0
    else
      assert s == [s[0]] + s[1..];
      var k := IndexOf(s[1..], c);
      assert s[..k + 1] == [s[0]] + s[1..][..k];
      k + 1
  }

  /** `s.replace(c, "")` with a one-character string pattern: only the first
      occurrence is removed. */
  function RemoveFirst(s: string, c: char): (r: string)
    ensures c !in s ==> r == s
    ensures c in s ==> r == s[..IndexOf(s, c)] + s[IndexOf(s, c) + 1..]
  {
    if c in s then s[..IndexOf(s, c)] + s[IndexOf(s, c) + 1..] else s
  }

  /** `s.replace(/c/g, "")`: every occurrence removed. */
  function RemoveAll(s: string, c: char): (r: string)
    ensures c !in r
    ensures forall x :: x != c ==> (x in r <==> x in s)
  {
    if |s| == 0 then ""
    else if s[0] == c then RemoveAll(s[1..], c)
    else [s[0]] + RemoveAll(s[1..], c)
  }

  /** `s.split(sep)` with a one-character separator; an empty string gives
      one empty piece. */
  function Split(s: string, sep: char): (r: seq<string>)
    ensures |r| >= 1
    ensures forall i :: 0 <= i < |r| ==> sep !in r[i]
    ensures forall i, x :: 0 <= i < |r| && x in r[i] ==> x in s
    decreases |s|
  {
    if sep !in s then [s]
    else
      var k := IndexOf(s, sep);
      var rest := Split(s[k + 1..], sep);
      assert forall x :: x in s[..k] ==> x in s;
      assert forall x :: x in s[k + 1..] ==> x in s;
      [s[..k]] + rest
  }

  function Join(parts: seq<string>, sep: char): string
    requires |parts| >= 1
  {
    if |parts| == 1 then parts[0] else parts[0] + [sep] + Join(parts[1..], sep)
  }

  /** Splitting loses nothing: joining the pieces back gives the input. */
  lemma {:induction false} JoinSplit(s: string, sep: char)
    ensures Join(Split(s, sep), sep) == s
    decreases |s|
  {
    if sep in s {
      var k := IndexOf(s, sep);
      JoinSplit(s[k + 1..], sep);
      assert Split(s, sep)[1..] == Split(s[k + 1..], sep);
      assert s == s[..k] + [sep] + s[k + 1..];
    }
  }

  predicate IsPrefix(p: string, s: string) {
    |p| <= |s| && s[..|p|] == p
  }

  /** sub occurs in s starting at position k. */
  predicate OccursAt(s: string, sub: string, k: int) {
    0 <= k && k + |sub| <= |s| && s[k..k + |sub|] == sub
  }

  predicate Contains(s: string, sub: string) {
    exists k :: 0 <= k <= |s| - |sub| && OccursAt(s, sub, k)
  }

  /** `s.split(sub)[0]`: the text before the first occurrence of sub, or all of s. */
  function Before(s: string, sub: string): (r: string)
    requires |sub| > 0
    ensures IsPrefix(r, s)
    decreases |s|
  {
    if |s| < |sub| then s
    else if s[..|sub|] == sub then ""
    else [s[0]] + Before(s[1..], sub)
  }

  lemma OccursShift(s: string, sub: string, k: int)
    requires |s| > 0 && k >= 0
    ensures OccursAt(s, sub, k + 1) <==> OccursAt(s[1..], sub, k)
  {
    if 0 <= k && k + 1 + |sub| <= |s| {
      assert s[1..][k..k + |sub|] == s[k + 1..k + 1 + |sub|];
    }
  }

  /** Before stops exactly at the first occurrence of sub. */
  lemma {:induction false} BeforeStops(s: string, sub: string)
    requires |sub| > 0
    ensures var r := Before(s, sub);
      && (forall k :: 0 <= k < |r| ==> !OccursAt(s, sub, k))
      && (|r| < |s| ==> OccursAt(s, sub, |r|))
    decreases |s|
  {
    if |s| >= |sub| && s[..|sub|] != sub {
      var t := Before(s[1..], sub);
      BeforeStops(s[1..], sub);
      assert !OccursAt(s, sub, 0);
      forall k | 1 <= k < |t| + 1
        ensures !OccursAt(s, sub, k)
      {
        OccursShift(s, sub, k - 1);
      }
      OccursShift(s, sub, |t|);
    }
  }

  /** Before stops exactly at the first occurrence of sub, and keeps all of
      s when sub does not occur. */
  lemma BeforeSpec(s: string, sub: string)
    requires |sub| > 0
    ensures var r := Before(s, sub);
      && (forall k :: 0 <= k < |r| ==> !OccursAt(s, sub, k))
      && (|r| < |s| ==> OccursAt(s, sub, |r|))
      && (!Contains(s, sub) ==> r == s)
  {
    BeforeStops(s, sub);
    var r := Before(s, sub);
    if |r| < |s| {
      assert OccursAt(s, sub, |r|);
      assert Contains(s, sub);
    }
  }

  // ---------------------------------------------------------------------
  // Decimal rendering of counters (`str(n)` / `"" + n` for whole numbers)
  // ---------------------------------------------------------------------

  function DigitChar(d: nat): char
    requires d < 10
  {
    ('0' as int + d) as char
  }

  predicate IsDigit(c: char) { '0' <= c <= '9' }

  function NatToString(n: nat): (r: string)
    ensures |r| >= 1
    ensures forall i :: 0 <= i < |r| ==> IsDigit(r[i])
  {
    if n < 10 then [DigitChar(n)] else NatToString(n / 10) + [DigitChar(n % 10)]
  }

  function DigitsValue(s: string): int
    decreases |s|
  {
    if |s| == 0 then 0 else DigitsValue(s[..|s| - 1]) * 10 + (s[|s| - 1] as int - '0' as int)
  }

  /** Rendering a counter loses nothing: reading the digits back gives it. */
  lemma {:induction false} NatToStringRoundTrip(n: nat)
    ensures DigitsValue(NatToString(n)) == n
  {
    if n >= 10 {
      NatToStringRoundTrip(n / 10);
      var s := NatToString(n);
      assert s[..|s| - 1] == NatToString(n / 10);
    }
  }
}
