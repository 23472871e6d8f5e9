/** Values shared by every part of the model: optional values, update patches,
    JSON payloads, Python truthiness, SQL pagination and the few string
    operations the service performs (ASCII case mapping, substring search,
    decimal rendering of identifiers). */
module Common {

  /** Primary keys. The service draws UUID4 strings; the model draws them from
      one counter, so a fresh key is one no row has ever had. */
  type Id = nat

  datatype Option<+T> = None | Some(value: T) {
    function GetOr(default: T): T {
      match this
      case Some(v) => v
      case None => default
    }
  }

  /** One field of a pydantic update schema after `model_dump(exclude_unset=True)`:
      left out of the request (`Keep`) or sent, possibly as null (`Put`). */
  datatype Patch<+T> = Keep | Put(value: T) {
    function Or(current: T): T {
      match this
      case Put(v) => v
      case Keep => current
    }
  }

  /** A JSON value, for the free-form columns (details, metadata, override flags). */
  datatype Json =
    | JNull
    | JBool(b: bool)
    | JInt(i: int)
    | JStr(s: string)
    | JList(items: seq<Json>)
    | JObject(fields: map<string, Json>)

  type JsonObject = map<string, Json>

  /** Whether a JSON value counts as true in a condition: null, false, zero,
      the empty string and empty containers do not. */
  predicate Truthy(j: Json) {
    match j
    case JNull => false
    case JBool(b) => b
    case JInt(i) => i != 0
    case JStr(s) => s != ""
    case JList(items) => items != []
    case JObject(fields) => fields != map[]
  }

  function JOpt(s: Option<string>): Json {
    match s
    case Some(v) => JStr(v)
    case None => JNull
  }

  function JOptBool(b: Option<bool>): Json {
    match b
    case Some(v) => JBool(v)
    case None => JNull
  }

  /** Python truthiness of an optional string (`if s:`): present and non-empty. */
  predicate Given(s: Option<string>) {
    s.Some? && s.value != ""
  }

  /** Python truthiness of a nullable boolean column. */
  predicate IsTrue(b: Option<bool>) {
    b == Some(true)
  }

  function Min(a: int, b: int): int {
    if a <= b then a else b
  }

  function Max(a: int, b: int): int {
    if a <= b then b else a
  }

  /** `query.offset(offset).limit(limit)`: the rows from position `offset` on,
      at most `limit` of them. */
  function Page<T>(s: seq<T>, offset: nat, limit: nat): (r: seq<T>)
    ensures |r| == Min(limit, Max(0, |s| - offset))
    ensures forall k :: 0 <= k < |r| ==> r[k] == s[offset + k]
    ensures multiset(r) <= multiset(s)
  {
    if offset >= |s| then []
    else
      var upper := Min(offset + limit, |s|);
      assert s == s[..offset] + s[offset..upper] + s[upper..];
      s[offset..upper]
  }

  /** `r` is the window of `s` that starts after its first `offset` elements. */
  ghost predicate WindowOf<T>(r: seq<T>, s: seq<T>, offset: nat) {
    forall k :: 0 <= k < |r| ==> offset + k < |s| && r[k] == s[offset + k]
  }

  /** SQLite's `OFFSET n`: a negative offset skips nothing. */
  function SqlOffset(skip: int): (n: nat)
    ensures skip >= 0 ==> n == skip
    ensures skip < 0 ==> n == 0
  {
    if skip < 0 then 0 else skip
  }

  /** SQLite's `LIMIT n` over `rows` rows: a negative limit is no limit. */
  function SqlLimit(limit: int, rows: nat): (n: nat)
    ensures limit >= 0 ==> n == limit
    ensures limit < 0 ==> n == rows
  {
    if limit < 0 then rows else limit
  }

  /** Python's `s[:n]`, where a negative `n` drops the last `-n` elements. */
  function TakePython<T>(s: seq<T>, n: int): (r: seq<T>)
    ensures r <= s
    ensures |r| == (if n >= 0 then Min(n, |s|) else Max(0, |s| + n))
  {
    if n >= 0 then s[..Min(n, |s|)] else s[..Max(0, |s| + n)]
  }

  // ---------------------------------------------------------------------------
  // Strings (ASCII case mapping; the service's `lower()`, `upper()` and `ilike`)

  function LowerChar(c: char): char {
    if 'A' <= c <= 'Z' then (c as int + 32) as char else c
  }

  function UpperChar(c: char): char {
    if 'a' <= c <= 'z' then (c as int - 32) as char else c
  }

  function Lower(s: string): (r: string)
    ensures |r| == |s|
    ensures forall i :: 0 <= i < |s| ==> r[i] == LowerChar(s[i])
  {
    if s == [] then [] else [LowerChar(s[0])] + Lower(s[1..])
  }

  function Upper(s: string): (r: string)
    ensures |r| == |s|
    ensures forall i :: 0 <= i < |s| ==> r[i] == UpperChar(s[i])
  {
    if s == [] then [] else [UpperChar(s[0])] + Upper(s[1..])
  }

  /** `sub` occurs in `s` starting at position `i`. */
  predicate OccursAt(sub: string, s: string, i: int) {
    0 <= i && i + |sub| <= |s| && s[i..i + |sub|] == sub
  }

  /** Substring search, `sub in s` in Python, `LIKE '%sub%'` in SQL. */
  function Contains(s: string, sub: string): (r: bool)
    ensures r <==> exists i :: OccursAt(sub, s, i)
  {
    if sub <= s then
      assert OccursAt(sub, s, 0);
      true
    else if s == [] then
      assert forall i :: !OccursAt(sub, s, i);
      false
    else
      var r := Contains(s[1..], sub);
      assert forall i :: 0 <= i ==> (OccursAt(sub, s[1..], i) <==> OccursAt(sub, s, i + 1)) by {
        forall i | 0 <= i ensures OccursAt(sub, s[1..], i) <==> OccursAt(sub, s, i + 1) {
          OccursShift(sub, s, i);
        }
      }
      assert !OccursAt(sub, s, 0);
      assert forall i :: OccursAt(sub, s, i) ==> i == 0 || OccursAt(sub, s[1..], i - 1);
      r
  }

  /** An occurrence in the tail is an occurrence one place later in the
      whole. */
  lemma OccursShift(sub: string, s: string, i: int)
    requires s != [] && 0 <= i
    ensures OccursAt(sub, s[1..], i) <==> OccursAt(sub, s, i + 1)
  {
    if 0 <= i && i + |sub| <= |s| - 1 {
      assert s[1..][i..i + |sub|] == s[i + 1..i + 1 + |sub|];
    }
  }

  /** `s.endswith(suffix)`. */
  predicate EndsWith(s: string, suffix: string) {
    |suffix| <= |s| && s[|s| - |suffix|..] == suffix
  }

  /** A string ending with `suffix` has its characters at the same distance
      from the end. */
  lemma EndsWithChar(s: string, suffix: string, i: nat)
    requires 0 < i <= |suffix|
    ensures EndsWith(s, suffix) ==> s[|s| - i] == suffix[|suffix| - i]
  {
  }

  /** `column.ilike('%pattern%')`: case-insensitive substring match (ASCII). */
  predicate ILikeContains(s: string, pattern: string) {
    Contains(Lower(s), Lower(pattern))
  }

  function DigitChar(d: nat): char
    requires d < 10
  {
    "0123456789"[d]
  }

  /** Decimal rendering of a natural number, the text form of an identifier. */
  function NatToString(n: nat): (r: string)
    ensures |r| >= 1
    ensures forall i :: 0 <= i < |r| ==> '0' <= r[i] <= '9'
    ensures |r| == 1 || r[0] != '0'
  {
    if n < 10 then [DigitChar(n)]
    else
      var lead := NatToString(n / 10);
      assert |lead| == 1 ==> lead[0] == DigitChar(n / 10) && 1 <= n / 10 < 10;
      lead + [DigitChar(n % 10)]
  }

  predicate IsDigits(s: string) {
    forall i :: 0 <= i < |s| ==> '0' <= s[i] <= '9'
  }

  /** The number a string of decimal digits stands for. */
  function DigitsValue(s: string): nat
    requires IsDigits(s)
  {
    if s == [] then 0 else DigitsValue(s[..|s| - 1]) * 10 + (s[|s| - 1] as int - '0' as int)
  }

  lemma DigitCharValue(d: nat)
    requires d < 10
    ensures DigitChar(d) as int - '0' as int == d
  {
    if d < 5 {
      assert d == 0 || d == 1 || d == 2 || d == 3 || d == 4;
    } else {
      assert d == 5 || d == 6 || d == 7 || d == 8 || d == 9;
    }
  }

  /** Reading back the decimal rendering gives the number. */
  lemma {:induction false} NatToStringRoundTrip(n: nat)
    ensures DigitsValue(NatToString(n)) == n
  {
    if n < 10 {
      DigitCharValue(n);
      assert NatToString(n)[..0] == [];
    } else {
      var r := NatToString(n);
      NatToStringRoundTrip(n / 10);
      DigitCharValue(n % 10);
      assert r[..|r| - 1] == NatToString(n / 10);
    }
  }

  // ---------------------------------------------------------------------------
  // Handler outcomes and table queries

  /** What a handler gives back: the value, an `HTTPException` with its status
      (404, 400, 422 for a query parameter outside its declared range), or the
      database rejecting the commit for a violated constraint. */
  datatype Response<+T> =
    | Ok(value: T)
    | NotFound(detail: string)
    | BadRequest(detail: string)
    | Unprocessable(detail: string)
    | IntegrityError(detail: string)

  /** `query.filter(p)`: the elements satisfying `p`, in their order. */
  function Filter<T>(s: seq<T>, p: T -> bool): (r: seq<T>)
    ensures forall k :: 0 <= k < |r| ==> p(r[k])
    ensures multiset(r) <= multiset(s)
    ensures |r| <= |s|
  {
    if s == [] then []
    else
      var rest := Filter(s[1..], p);
      assert s == [s[0]] + s[1..];
      if p(s[0]) then [s[0]] + rest else rest
  }

  /** Over a sequence without repetitions, the filter keeps one copy of each
      element that satisfies `p`. */
  lemma {:induction false} DistinctFilterCount<T(!new)>(s: seq<T>, p: T -> bool)
    requires forall i, j :: 0 <= i < j < |s| ==> s[i] != s[j]
    ensures |Filter(s, p)| == |Satisfying(s, p)|
  {
    if s != [] {
      var tail := s[1..];
      DistinctTail(s);
      DistinctFilterCount(tail, p);
      SatisfyingHead(s, p);
      assert |Filter(s, p)| == (if p(s[0]) then 1 else 0) + |Filter(tail, p)|;
    }
  }

  /** The tail of a sequence without repetitions has none and lacks the head. */
  lemma DistinctTail<T>(s: seq<T>)
    requires s != []
    requires forall i, j :: 0 <= i < j < |s| ==> s[i] != s[j]
    ensures forall i, j :: 0 <= i < j < |s[1..]| ==> s[1..][i] != s[1..][j]
    ensures s[0] !in s[1..]
  {
    var tail := s[1..];
    forall i, j | 0 <= i < j < |tail| ensures tail[i] != tail[j] {
      assert tail[i] == s[i + 1] && tail[j] == s[j + 1];
    }
    forall j | 0 <= j < |tail| ensures tail[j] != s[0] {
      assert tail[j] == s[1 + j];
    }
  }

  /** The satisfying elements of a sequence are those of its tail, plus the
      head when it satisfies `p`. */
  lemma SatisfyingHead<T(!new)>(s: seq<T>, p: T -> bool)
    requires s != []
    ensures Satisfying(s, p) == Satisfying(s[1..], p) + (if p(s[0]) then {s[0]} else {})
  {
    assert forall x :: x in s <==> x == s[0] || x in s[1..] by {
      assert s == [s[0]] + s[1..];
    }
  }

  /** The elements of `s` that satisfy `p`, as a set. */
  function Satisfying<T(!new)>(s: seq<T>, p: T -> bool): set<T> {
    set x | x in s && p(x)
  }

  /** `key` strictly increases along `s`. */
  ghost predicate Increasing<T>(s: seq<T>, key: T -> nat) {
    forall i, j :: 0 <= i < j < |s| ==> key(s[i]) < key(s[j])
  }

  /** Two sequences along which `key` strictly increases and that hold the
      same elements are the same sequence. */
  lemma {:induction false} IncreasingUnique<T>(a: seq<T>, b: seq<T>, key: T -> nat)
    requires Increasing(a, key) && Increasing(b, key)
    requires forall x :: x in a <==> x in b
    ensures a == b
    decreases |a|
  {
    if a != [] {
      assert a[0] in b;
      var j :| 0 <= j < |b| && b[j] == a[0];
      assert b[0] in a;
      var i :| 0 <= i < |a| && a[i] == b[0];
      assert key(a[0]) <= key(a[i]) == key(b[0]) <= key(b[j]) == key(a[0]);
      forall x ensures x in a[1..] <==> x in b[1..] {
        TailMembers(a, key, x);
        TailMembers(b, key, x);
      }
      IncreasingUnique(a[1..], b[1..], key);
      assert a == [a[0]] + a[1..] && b == [b[0]] + b[1..];
    } else if b != [] {
      HeadIsMember(b);
      assert false;
    }
  }

  lemma HeadIsMember<T>(b: seq<T>)
    ensures b != [] ==> b[0] in b
  {
  }

  /** The tail of a strictly increasing sequence holds everything but its
      head. */
  lemma TailMembers<T>(a: seq<T>, key: T -> nat, x: T)
    requires Increasing(a, key) && a != []
    ensures x in a[1..] <==> x in a && x != a[0]
  {
    if x in a[1..] {
      var k :| 0 <= k < |a[1..]| && a[1..][k] == x;
      assert a[k + 1] == x && key(a[0]) < key(a[k + 1]);
    }
    if x in a && x != a[0] {
      var k :| 0 <= k < |a| && a[k] == x;
      assert a[1..][k - 1] == x;
    }
  }

  /** A filter keeps the order of what it keeps. */
  lemma {:induction false} FilterIncreasing<T>(s: seq<T>, p: T -> bool, key: T -> nat)
    requires Increasing(s, key)
    ensures Increasing(Filter(s, p), key)
  {
    if s != [] {
      FilterIncreasing(s[1..], p, key);
      var rest := Filter(s[1..], p);
      if p(s[0]) {
        var r := [s[0]] + rest;
        forall i, j | 0 <= i < j < |r| ensures key(r[i]) < key(r[j]) {
          if i == 0 {
            assert r[j] == rest[j - 1];
            assert r[j] in multiset(s[1..]);
            var m :| 0 <= m < |s[1..]| && s[1..][m] == r[j];
            assert s[m + 1] == r[j];
          } else {
            assert r[i] == rest[i - 1] && r[j] == rest[j - 1];
          }
        }
      }
    }
  }

  /** A page of a sequence keeps its order. */
  lemma PageIncreasing<T>(s: seq<T>, offset: nat, limit: nat, key: T -> nat)
    requires Increasing(s, key)
    ensures Increasing(Page(s, offset, limit), key)
  {
    var r := Page(s, offset, limit);
    forall i, j | 0 <= i < j < |r| ensures key(r[i]) < key(r[j]) {
      assert r[i] == s[offset + i] && r[j] == s[offset + j];
    }
  }

  /** Exactly the elements of `s` that satisfy `p` pass the filter. */
  lemma {:induction false} FilterMembers<T(!new)>(s: seq<T>, p: T -> bool)
    ensures forall x :: x in Filter(s, p) <==> x in s && p(x)
  {
    if s != [] {
      FilterMembers(s[1..], p);
      assert s == [s[0]] + s[1..];
    }
  }

  /** Filtering twice is filtering once by both conditions. */
  lemma {:induction false} FilterFilter<T(!new)>(s: seq<T>, p: T -> bool, q: T -> bool)
    ensures Filter(Filter(s, p), q) == Filter(s, x => p(x) && q(x))
  {
    if s != [] {
      FilterFilter(s[1..], p, q);
    }
  }

  /** A table scan: the rows whose key is below `n`, in key order. With every
      key drawn from the counter, this is insertion order. */
  function Scan<T(!new)>(m: map<Id, T>, n: nat): (r: seq<T>)
    ensures forall x :: x in r <==> exists k :: k in m && k < n && m[k] == x
    ensures |r| <= n
  {
    if n == 0 then []
    else
      var r := Scan(m, n - 1);
      if n - 1 in m then r + [m[n - 1]] else r
  }

  /** A scan of a map whose rows carry their own key lists the rows in
      strictly increasing key order. */
  lemma {:induction false} ScanIncreasing<T(!new)>(m: map<Id, T>, n: nat, key: T -> Id)
    requires forall k :: k in m ==> key(m[k]) == k
    ensures Increasing(Scan(m, n), key)
  {
    if n > 0 {
      ScanIncreasing(m, n - 1, key);
      var r := Scan(m, n - 1);
      if n - 1 in m {
        var t := r + [m[n - 1]];
        forall i, j | 0 <= i < j < |t| ensures key(t[i]) < key(t[j]) {
          if j == |r| {
            assert t[i] in r;
            var k :| k in m && k < n - 1 && m[k] == t[i];
          } else {
            assert t[i] == r[i] && t[j] == r[j];
          }
        }
      }
    }
  }

  /** The state after applying `step` to each item in turn, as the
      `for field, value in update_data.items(): setattr(...)` loops do. */
  function Fold<S, F>(s: S, items: seq<F>, step: (S, F) -> S): S
    decreases |items|
  {
    if items == [] then s else step(Fold(s, items[..|items| - 1], step), items[|items| - 1])
  }

  lemma FoldSnoc<S, F>(s: S, items: seq<F>, x: F, step: (S, F) -> S)
    ensures Fold(s, items + [x], step) == step(Fold(s, items, step), x)
  {
    assert (items + [x])[..|items|] == items;
  }

  /** Applying two batches in turn is applying their concatenation. */
  lemma {:induction false} FoldAppend<S, F>(s: S, a: seq<F>, b: seq<F>, step: (S, F) -> S)
    ensures Fold(s, a + b, step) == Fold(Fold(s, a, step), b, step)
    decreases |b|
  {
    if b == [] {
      assert a + b == a;
    } else {
      var init := b[..|b| - 1];
      var last := b[|b| - 1];
      assert b == init + [last];
      assert a + b == (a + init) + [last];
      FoldSnoc(s, a + init, last, step);
      FoldAppend(s, a, init, step);
      FoldSnoc(Fold(s, a, step), init, last, step);
    }
  }
}
