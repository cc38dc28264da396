/** Shared vocabulary of the model: optional values, the replies a route
    handler sends, and the list operations (`filter`, `filter().length`,
    `map`, `slice`, newest-first `sort`) the handlers are built from. */
module Common {

  datatype Option<+T> = None | Some(value: T)

  /** What a route handler answers: a success status with its JSON body, or
      an error status with the `{ error }` message. */
  datatype Reply<+T> = Ok(status: nat, body: T) | Err(status: nat, error: string)

  /** The generic catch-all every handler's `try`/`catch` answers with. */
  const InternalError: string := "Internal server error"

  /** A JSON string field under JavaScript's `!x` test: absent, `null` and `""` are falsy. */
  predicate TruthyText(x: Option<string>)
  {
    x.Some? && |x.value| > 0
  }

  /** A JSON number field under `!x`: absent, `null` and `0` are falsy. */
  predicate TruthyNumber(x: Option<real>)
  {
    x.Some? && x.value != 0.0
  }

  /** The handlers' required-field loop, `for (const field of requiredFields)
      if (!body[field]) return ...`: the first field whose value is falsy. */
  function FirstMissing<F(==), B>(fields: seq<F>, body: B, truthy: (B, F) -> bool): (r: Option<F>)
    ensures r.None? <==> forall i :: 0 <= i < |fields| ==> truthy(body, fields[i])
    ensures r.Some? ==> exists k :: FirstFalsyAt(fields, body, truthy, r.value, k)
  {
    if fields == [] then None
    else if !truthy(body, fields[0]) then
      assert FirstFalsyAt(fields, body, truthy, fields[0], 0);
      Some(fields[0])
    else
      var r := FirstMissing(fields[1..], body, truthy);
      if r.Some? then
        FirstFalsyShift(fields, body, truthy, r.value);
        r
      else r
  }

  /** `field` is at index `k`, is falsy, and every field before it is truthy. */
  predicate FirstFalsyAt<F(==), B>(fields: seq<F>, body: B, truthy: (B, F) -> bool, field: F, k: int)
  {
    && 0 <= k < |fields| && fields[k] == field && !truthy(body, fields[k])
    && forall i :: 0 <= i < k ==> truthy(body, fields[i])
  }

  /** The first falsy field of the tail is the first of the whole list when the head is truthy. */
  lemma FirstFalsyShift<F, B>(fields: seq<F>, body: B, truthy: (B, F) -> bool, field: F)
    requires fields != [] && truthy(body, fields[0])
    requires exists k :: FirstFalsyAt(fields[1..], body, truthy, field, k)
    ensures exists k :: FirstFalsyAt(fields, body, truthy, field, k)
  {
    var k :| FirstFalsyAt(fields[1..], body, truthy, field, k);
    forall i | 0 <= i < k + 1 ensures truthy(body, fields[i]) {
      if i > 0 {
        assert fields[i] == fields[1..][i - 1];
      }
    }
    assert FirstFalsyAt(fields, body, truthy, field, k + 1);
  }

  /** The message a missing required field is answered with: `${field} is required`. */
  function Required(field: string): string
  {
    field + " is required"
  }

  /** JavaScript's `Array.prototype.filter`: the elements satisfying `p`, in order. */
  function Filter<T(==,!new)>(s: seq<T>, p: T -> bool): (r: seq<T>)
    ensures |r| <= |s|
    ensures forall x :: x in r <==> x in s && p(x)
    ensures forall i :: 0 <= i < |r| ==> p(r[i])
  {
    if s == [] then [] else (if p(s[0]) then [s[0]] else []) + Filter(s[1..], p)
  }

  /** `s.filter(p).length`. */
  function Count<T(==,!new)>(s: seq<T>, p: T -> bool): nat
  {
    |Filter(s, p)|
  }

  /** When every element satisfies `p`, filtering is the identity. */
  lemma {:induction false} FilterAll<T(!new)>(s: seq<T>, p: T -> bool)
    requires forall x :: x in s ==> p(x)
    ensures Filter(s, p) == s
  {
    if s != [] {
      FilterAll(s[1..], p);
    }
  }

  /** Filtering distributes over concatenation. */
  lemma {:induction false} FilterConcat<T(!new)>(a: seq<T>, b: seq<T>, p: T -> bool)
    ensures Filter(a + b, p) == Filter(a, p) + Filter(b, p)
  {
    if a == [] {
      assert a + b == b;
    } else {
      assert (a + b)[1..] == a[1..] + b;
      FilterConcat(a[1..], b, p);
    }
  }

  /** Elements satisfying `p` and elements failing it together make up the whole list. */
  lemma {:induction false} CountSplit<T(!new)>(s: seq<T>, p: T -> bool, q: T -> bool)
    requires forall x :: q(x) == !p(x)
    ensures Count(s, p) + Count(s, q) == |s|
  {
    if s != [] {
      CountSplit(s[1..], p, q);
    }
  }

  /** Counting a stronger condition never gives more. */
  lemma {:induction false} CountMonotone<T(!new)>(s: seq<T>, p: T -> bool, q: T -> bool)
    requires forall x :: p(x) ==> q(x)
    ensures Count(s, p) <= Count(s, q)
  {
    if s != [] {
      CountMonotone(s[1..], p, q);
    }
  }

  /** Two conditions that never hold together and that make up `r` split `r`'s count. */
  lemma {:induction false} CountUnion<T(!new)>(s: seq<T>, p: T -> bool, q: T -> bool, r: T -> bool)
    requires forall x :: r(x) == (p(x) || q(x))
    requires forall x :: !(p(x) && q(x))
    ensures Count(s, p) + Count(s, q) == Count(s, r)
  {
    if s != [] {
      CountUnion(s[1..], p, q, r);
    }
  }

  /** The first `n` elements (`slice(0, n)` / Mongo's `limit(n)`). */
  function Take<T>(s: seq<T>, n: nat): (r: seq<T>)
    ensures |r| == if |s| < n then |s| else n
    ensures r == s[..|r|]
  {
    if |s| <= n then s else s[..n]
  }

  /** `s` is ordered by non-increasing key: the newest first. */
  ghost predicate NewestFirst<T>(s: seq<T>, key: T -> int)
  {
    forall i, j :: 0 <= i < j < |s| ==> key(s[i]) >= key(s[j])
  }

  /** Inserts `x` before the first element whose key it is not older than. */
  function Insert<T>(x: T, s: seq<T>, key: T -> int): (r: seq<T>)
    ensures |r| == |s| + 1
  {
    if s == [] then [x]
    else if key(x) >= key(s[0]) then [x] + s
    else [s[0]] + Insert(x, s[1..], key)
  }

  /** Inserting adds exactly `x`. */
  lemma {:induction false} InsertPermutes<T(!new)>(x: T, s: seq<T>, key: T -> int)
    ensures multiset(Insert(x, s, key)) == multiset(s) + multiset{x}
  {
    if s != [] && key(x) < key(s[0]) {
      InsertPermutes(x, s[1..], key);
      assert s == [s[0]] + s[1..];
    }
  }

  /** Inserting under a bound every key already meets keeps every key under it. */
  lemma {:induction false} InsertBelow<T>(x: T, s: seq<T>, key: T -> int, bound: int)
    requires key(x) <= bound
    requires forall i :: 0 <= i < |s| ==> key(s[i]) <= bound
    ensures forall i :: 0 <= i < |Insert(x, s, key)| ==> key(Insert(x, s, key)[i]) <= bound
  {
    if s != [] && key(x) < key(s[0]) {
      InsertBelow(x, s[1..], key, bound);
    }
  }

  /** Inserting into a newest-first list keeps it newest-first. */
  lemma {:induction false} InsertSorted<T>(x: T, s: seq<T>, key: T -> int)
    requires NewestFirst(s, key)
    ensures NewestFirst(Insert(x, s, key), key)
  {
    if s != [] && key(x) < key(s[0]) {
      var rest := Insert(x, s[1..], key);
      InsertSorted(x, s[1..], key);
      InsertBelow(x, s[1..], key, key(s[0]));
      var r := [s[0]] + rest;
      assert Insert(x, s, key) == r;
      forall i, j | 0 <= i < j < |r| ensures key(r[i]) >= key(r[j]) {
        assert r[j] == rest[j - 1];
        if i > 0 {
          assert r[i] == rest[i - 1];
        }
      }
    }
  }

  /** Mongo's `.sort({ createdAt: -1 })`: a permutation of `s`, newest first;
      records with equal keys keep their stored order. */
  function SortNewestFirst<T(==,!new)>(s: seq<T>, key: T -> int): (r: seq<T>)
    ensures NewestFirst(r, key)
    ensures multiset(r) == multiset(s)
    ensures |r| == |s|
  {
    if s == [] then []
    else
      var sorted := SortNewestFirst(s[1..], key);
      InsertSorted(s[0], sorted, key);
      InsertPermutes(s[0], sorted, key);
      assert s == [s[0]] + s[1..];
      Insert(s[0], sorted, key)
  }

  /** Sorting keeps exactly the elements it was given. */
  lemma SortKeepsElements<T(!new)>(s: seq<T>, key: T -> int, x: T)
    ensures x in SortNewestFirst(s, key) <==> x in s
  {
    var r := SortNewestFirst(s, key);
    assert x in r <==> x in multiset(r);
    assert x in s <==> x in multiset(s);
  }
}
