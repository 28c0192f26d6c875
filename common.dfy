/** Values and sequence operations shared by the lobby and game-session model.

    The repositories keep their list-valued columns (player ids, decks) as
    ordered JSON arrays and change them with `filter`, spread-append,
    `includes`, `indexOf`, `slice` and `new Set(...)`.  Each of those gets one
    definition here, with the facts the rest of the model relies on. */
module Common {

  datatype Option<+T> = None | Some(value: T)

  /** The value held by `o`, or `d` when there is none. */
  function GetOr<T>(o: Option<T>, d: T): T {
    if o.Some? then o.value else d
  }

  /** A repository call either returns a value or throws an error. */
  datatype Result<+T, +E> = Ok(value: T) | Err(error: E)

  /** `Array.prototype.includes` / `JSON_CONTAINS` on an ordered list. */
  predicate Contains<T(==,!new)>(s: seq<T>, x: T) {
    x in s
  }

  /** No id occurs twice in the list. */
  ghost predicate NoDup<T>(s: seq<T>) {
    forall i, j :: 0 <= i < j < |s| ==> s[i] != s[j]
  }

  /** `s.filter(id => id !== x)`: drop every occurrence of `x`, keep the order of the rest. */
  function RemoveAll<T(==,!new)>(s: seq<T>, x: T): (r: seq<T>)
    ensures x !in r
    ensures forall y :: y != x ==> (y in r <==> y in s)
    ensures |r| <= |s|
    ensures x !in s ==> r == s
  {
    if s == [] then []
    else if s[0] == x then RemoveAll(s[1..], x)
    else [s[0]] + RemoveAll(s[1..], x)
  }

  /** Filtering keeps the relative order of the survivors: `RemoveAll(s, x)` is
      exactly the subsequence of `s` whose elements differ from `x`. */
  lemma {:induction false} RemoveAllIsOrderedFilter<T(!new)>(s: seq<T>, x: T, t: seq<T>)
    ensures RemoveAll(s + t, x) == RemoveAll(s, x) + RemoveAll(t, x)
  {
    if s == [] {
      assert s + t == t;
    } else {
      assert (s + t)[0] == s[0];
      assert (s + t)[1..] == s[1..] + t;
      RemoveAllIsOrderedFilter(s[1..], x, t);
    }
  }

  /** Filtering a duplicate-free list leaves it duplicate-free. */
  lemma {:induction false} RemoveAllNoDup<T(!new)>(s: seq<T>, x: T)
    requires NoDup(s)
    ensures NoDup(RemoveAll(s, x))
  {
    if s != [] {
      assert NoDup(s[1..]) by {
        forall i, j | 0 <= i < j < |s[1..]| ensures s[1..][i] != s[1..][j] {
          assert s[1..][i] == s[i + 1] && s[1..][j] == s[j + 1];
        }
      }
      RemoveAllNoDup(s[1..], x);
      if s[0] != x {
        var r := RemoveAll(s[1..], x);
        assert s[0] !in r by {
          forall k | 0 <= k < |s[1..]| ensures s[1..][k] != s[0] {
            assert s[1..][k] == s[k + 1];
          }
          assert s[0] !in s[1..];
        }
        forall i, j | 0 <= i < j < |[s[0]] + r| ensures ([s[0]] + r)[i] != ([s[0]] + r)[j] {
          if i == 0 {
            assert ([s[0]] + r)[j] == r[j - 1];
          } else {
            assert ([s[0]] + r)[i] == r[i - 1] && ([s[0]] + r)[j] == r[j - 1];
          }
        }
      }
    }
  }

  /** Appending an id that is not yet present keeps a list duplicate-free. */
  lemma AppendFreshNoDup<T>(s: seq<T>, x: T)
    requires NoDup(s) && x !in s
    ensures NoDup(s + [x])
  {
    forall i, j | 0 <= i < j < |s + [x]| ensures (s + [x])[i] != (s + [x])[j] {
      if j == |s| {
        assert (s + [x])[i] == s[i];
      } else {
        assert (s + [x])[i] == s[i] && (s + [x])[j] == s[j];
      }
    }
  }

  /** Two duplicate-free lists with no element in common concatenate to a duplicate-free list. */
  lemma NoDupConcat<T>(a: seq<T>, b: seq<T>)
    requires NoDup(a) && NoDup(b)
    requires forall x :: x in a ==> x !in b
    ensures NoDup(a + b)
  {
    forall i, j | 0 <= i < j < |a + b| ensures (a + b)[i] != (a + b)[j] {
      if j < |a| {
        assert (a + b)[i] == a[i] && (a + b)[j] == a[j];
      } else if i >= |a| {
        assert (a + b)[i] == b[i - |a|] && (a + b)[j] == b[j - |a|];
      } else {
        assert (a + b)[i] == a[i] && (a + b)[j] == b[j - |a|];
        assert a[i] in a;
      }
    }
  }

  /** `Array.prototype.indexOf`: the first position of `x`, or -1. */
  function IndexOf<T(==,!new)>(s: seq<T>, x: T): (r: int)
    ensures -1 <= r < |s|
    ensures r == -1 <==> x !in s
    ensures r >= 0 ==> s[r] == x && x !in s[..r]
  {
    if s == [] then -1
    else if s[0] == x then 0
    else
      var k := IndexOf(s[1..], x);
      assert k >= 0 ==> s[1..][..k] == s[1..k + 1];
      if k == -1 then -1 else k + 1
  }

  /** In a duplicate-free list, `indexOf` finds the one position holding `x`. */
  lemma IndexOfNoDup<T(!new)>(s: seq<T>, i: nat)
    requires NoDup(s) && i < |s|
    ensures IndexOf(s, s[i]) == i
  {
    var k := IndexOf(s, s[i]);
    assert s[k] == s[i];
  }

  /** `[...new Set(s)]`: the first occurrence of each element, in order. */
  function Dedup<T(==,!new)>(s: seq<T>): (r: seq<T>)
    ensures forall y :: y in r <==> y in s
    ensures |r| <= |s|
  {
    DedupFrom(s, [])
  }

  /** Helper of `Dedup`: `seen` holds the elements already emitted. */
  function DedupFrom<T(==,!new)>(s: seq<T>, seen: seq<T>): (r: seq<T>)
    ensures forall y :: y in r <==> y in s && y !in seen
    ensures |r| <= |s|
    decreases |s|
  {
    if s == [] then []
    else if s[0] in seen then DedupFrom(s[1..], seen)
    else [s[0]] + DedupFrom(s[1..], seen + [s[0]])
  }

  lemma {:induction false} DedupFromNoDup<T(!new)>(s: seq<T>, seen: seq<T>)
    ensures NoDup(DedupFrom(s, seen))
    decreases |s|
  {
    if s != [] {
      if s[0] in seen {
        DedupFromNoDup(s[1..], seen);
      } else {
        var r := DedupFrom(s[1..], seen + [s[0]]);
        DedupFromNoDup(s[1..], seen + [s[0]]);
        assert s[0] !in r;
        forall i, j | 0 <= i < j < |[s[0]] + r| ensures ([s[0]] + r)[i] != ([s[0]] + r)[j] {
          if i == 0 {
            assert ([s[0]] + r)[j] == r[j - 1];
          } else {
            assert ([s[0]] + r)[i] == r[i - 1] && ([s[0]] + r)[j] == r[j - 1];
          }
        }
      }
    }
  }

  /** `new Set` keeps the first element first and drops every repeat. */
  lemma DedupProperties<T(!new)>(s: seq<T>)
    ensures NoDup(Dedup(s))
    ensures s != [] ==> Dedup(s) != [] && Dedup(s)[0] == s[0]
  {
    DedupFromNoDup(s, []);
  }

  /** A list without repeats passes through `new Set` unchanged. */
  lemma {:induction false} DedupFromOfFresh<T(!new)>(s: seq<T>, seen: seq<T>)
    requires NoDup(s)
    requires forall y :: y in s ==> y !in seen
    ensures DedupFrom(s, seen) == s
    decreases |s|
  {
    if s != [] {
      assert NoDup(s[1..]) by {
        forall i, j | 0 <= i < j < |s[1..]| ensures s[1..][i] != s[1..][j] {
          assert s[1..][i] == s[i + 1] && s[1..][j] == s[j + 1];
        }
      }
      forall y | y in s[1..] ensures y !in seen + [s[0]] {
        var k :| 0 <= k < |s[1..]| && s[1..][k] == y;
        assert s[k + 1] == y;
      }
      DedupFromOfFresh(s[1..], seen + [s[0]]);
    }
  }

  lemma DedupOfNoDup<T(!new)>(s: seq<T>)
    requires NoDup(s)
    ensures Dedup(s) == s
  {
    DedupFromOfFresh(s, []);
  }

  /** `Math.min` on integers. */
  function Min(a: int, b: int): int {
    if a < b then a else b
  }

  lemma MulAtLeast(a: int, n: int)
    requires a >= 1 && n > 0
    ensures a * n >= n
    decreases a
  {
    if a > 1 {
      MulAtLeast(a - 1, n);
      assert a * n == (a - 1) * n + n;
    }
  }

  /** Euclidean remainders are unique: `x == q * n + r` with `0 <= r < n` means `x % n == r`. */
  lemma ModUnique(x: int, q: int, r: int, n: int)
    requires n > 0 && 0 <= r < n && x == q * n + r
    ensures x % n == r
  {
    var q0, r0 := x / n, x % n;
    assert x == q0 * n + r0;
    assert (q - q0) * n == r0 - r;
    if q > q0 {
      MulAtLeast(q - q0, n);
    } else if q < q0 {
      assert (q0 - q) * n == r - r0;
      MulAtLeast(q0 - q, n);
    }
  }

  /** Adding the modulus does not change the remainder. */
  lemma ModPlus(y: int, n: int)
    requires n > 0
    ensures (y + n) % n == y % n
  {
    var q, r := y / n, y % n;
    assert y + n == (q + 1) * n + r;
    ModUnique(y + n, q + 1, r, n);
  }

  /** JavaScript's reading of a `slice` bound against a list of length `len`:
      a negative bound counts from the end, and the result is clamped to [0, len]. */
  function SliceBound(len: nat, k: int): nat {
    if k < 0 then (if len + k < 0 then 0 else len + k)
    else if k > len then len
    else k
  }

  /** `s.slice(start, end)`. */
  function JsSlice<T>(s: seq<T>, start: int, end: int): (r: seq<T>)
    ensures |r| <= |s|
    ensures 0 <= start <= end <= |s| ==> r == s[start..end]
    ensures 0 <= end <= start ==> r == []
    ensures forall x :: x in r ==> x in s
  {
    var from, to := SliceBound(|s|, start), SliceBound(|s|, end);
    if from <= to then s[from..to] else []
  }

  /** `s.slice(0, Math.min(count, s.length))` followed by `s.slice(count)`:
      whatever integer `count` is, the two pieces put back together give `s`,
      and the first piece has the length JavaScript gives it. */
  lemma SplitAtCount<T>(s: seq<T>, count: int)
    ensures JsSlice(s, 0, Min(count, |s|)) + JsSlice(s, count, |s|) == s
    ensures count >= 0 ==> |JsSlice(s, 0, Min(count, |s|))| == Min(count, |s|)
    ensures count < 0 ==>
      |JsSlice(s, 0, count)| == (if |s| + count < 0 then 0 else |s| + count)
  {
    var m := Min(count, |s|);
    var b := SliceBound(|s|, count);
    assert SliceBound(|s|, m) == b;
    assert JsSlice(s, 0, m) == s[..b];
    assert JsSlice(s, count, |s|) == s[b..];
    assert s[..b] + s[b..] == s;
  }

  /** `String.prototype.toLowerCase` on the ASCII letters A to Z; every other
      character is kept as it is. */
  function LowerChar(c: char): char {
    if 'A' <= c <= 'Z' then (c as int + 32) as char else c
  }

  function ToLower(s: string): (r: string)
    ensures |r| == |s|
    ensures forall i :: 0 <= i < |s| ==> r[i] == LowerChar(s[i])
  {
    seq(|s|, i requires 0 <= i < |s| => LowerChar(s[i]))
  }

  /** Lower-casing twice is lower-casing once. */
  lemma ToLowerIdempotent(s: string)
    ensures ToLower(ToLower(s)) == ToLower(s)
  {
  }

  /** One value of `Math.random()`: a real number in [0, 1).  The model takes
      the random draws as inputs instead of calling a generator. */
  predicate IsDraw(u: real) {
    0.0 <= u < 1.0
  }

  ghost predicate AllDraws(rs: seq<real>) {
    forall i :: 0 <= i < |rs| ==> IsDraw(rs[i])
  }

  /** `Math.floor(u * n)`. */
  function ScaledFloor(u: real, n: nat): int {
    (u * n as real).Floor
  }

  /** A draw scaled by `n` and rounded down is an index in [0, n). */
  lemma ScaledFloorInRange(u: real, n: nat)
    requires IsDraw(u) && n > 0
    ensures 0 <= ScaledFloor(u, n) < n
  {
    var x := u * n as real;
    assert 0.0 <= x;
    assert x < n as real by {
      assert n as real - x == (1.0 - u) * n as real;
      assert (1.0 - u) * n as real > 0.0;
    }
  }

  /** `Math.ceil(a / b)` for integers, characterised without reals: `r` is the
      least integer at or above the quotient. */
  function CeilDiv(a: int, b: int): (r: int)
    requires b != 0
    ensures b > 0 ==> (r - 1) * b < a <= r * b
    ensures b < 0 ==> r * b <= a < (r - 1) * b
  {
    if b > 0 then
      var q := (-a) / b;
      assert -a == q * b + (-a) % b;
      -q
    else
      var q := a / (-b);
      assert a == q * (-b) + a % (-b);
      -q
  }

  /** What a listing query reports besides its rows. */
  datatype Paging = Paging(page: int, limit: int, offset: int, total: nat, totalPages: int)

  /** The paging arithmetic the room and user listings share: `limit || 50`,
      `page || 1`, `offset = (page - 1) * limit` and
      `totalPages = Math.ceil(total / limit)`; 0 stands for an unset limit or page. */
  function Paginate(limit: int, page: int, total: nat): (p: Paging)
    ensures p.limit == (if limit == 0 then 50 else limit) && p.limit != 0
    ensures p.page == (if page == 0 then 1 else page)
    ensures p.offset == (p.page - 1) * p.limit && p.total == total
    ensures p.limit > 0 ==> (p.totalPages - 1) * p.limit < total <= p.totalPages * p.limit
  {
    var l := if limit == 0 then 50 else limit;
    var pg := if page == 0 then 1 else page;
    Paging(pg, l, (pg - 1) * l, total, CeilDiv(total, l))
  }

  /** With a positive limit, row `k` of `total` rows lies on page `k / limit + 1`:
      that page is one of the `totalPages` pages and its window covers `k`. */
  lemma RowOnSomePage(limit: int, total: nat, k: nat)
    requires limit > 0 && k < total
    ensures var pg := k / limit + 1;
            var p := Paginate(limit, pg, total);
            1 <= pg <= p.totalPages && p.offset <= k < p.offset + p.limit
  {
    var pg := k / limit + 1;
    var p := Paginate(limit, pg, total);
    assert k == (k / limit) * limit + k % limit;
    assert p.offset == (k / limit) * limit;
    MulLess(k / limit, p.totalPages, limit);
  }

  lemma MulLess(a: int, b: int, n: int)
    requires n > 0 && a * n < b * n
    ensures a < b
  {
    assert (b - a) * n == b * n - a * n;
  }

  /** Filtering out an element that occurs makes the list strictly shorter. */
  lemma {:induction false} RemoveAllShrinks<T(!new)>(s: seq<T>, x: T)
    requires x in s
    ensures |RemoveAll(s, x)| < |s|
  {
    if s[0] != x {
      RemoveAllShrinks(s[1..], x);
    }
  }

  /** A decimal digit. */
  function DigitChar(d: int): char
    requires 0 <= d < 10
  {
    ('0' as int + d) as char
  }

  /** `String(n)` for an integer: its decimal digits, with a leading "-" when negative. */
  function IntToString(i: int): (s: string)
    ensures |s| > 0
    decreases if i < 0 then 1 - i else i
  {
    if i < 0 then "-" + IntToString(-i)
    else if i < 10 then [DigitChar(i)]
    else IntToString(i / 10) + [DigitChar(i % 10)]
  }

  // ---------------------------------------------------------------------
  // JavaScript truthiness of optional request and row values

  /** A string that JavaScript treats as true: present and not empty. */
  predicate Truthy(s: Option<string>) {
    s.Some? && s.value != ""
  }

  /** `s || null`. */
  function OrNull(s: Option<string>): (r: Option<string>)
    ensures r.Some? <==> Truthy(s)
    ensures r.Some? ==> r == s
  {
    if Truthy(s) then s else None
  }

  /** `s || ''`. */
  function OrEmpty(s: Option<string>): (r: string)
    ensures Truthy(s) ==> r == s.value
    ensures !Truthy(s) ==> r == ""
  {
    if s.Some? then s.value else ""
  }

  /** A number JavaScript treats as true. */
  predicate TruthyInt(n: Option<int>) {
    n.Some? && n.value != 0
  }

  /** `n || d` for an optional number. */
  function OrInt(n: Option<int>, d: int): (r: int)
    ensures TruthyInt(n) ==> r == n.value
    ensures !TruthyInt(n) ==> r == d
  {
    if TruthyInt(n) then n.value else d
  }

  // ---------------------------------------------------------------------
  // HTTP status codes the routes answer with

  const STATUS_BAD_REQUEST := 400
  const STATUS_UNAUTHORIZED := 401
  const STATUS_FORBIDDEN := 403
  const STATUS_NOT_FOUND := 404
  const STATUS_INTERNAL_ERROR := 500
}
