/** Shared vocabulary of the backend model: optional values and results, the provider
    enumeration both schemas use, schema validation errors, and the folds (filter, sum,
    count) that the routes' `reduce`/`filter` calls and the store's `$sum` stages perform. */
module Common {

  datatype Option<+T> = None | Some(value: T) {
    function GetOr(default: T): T {
      match this
      case Some(v) => v
      case None => default
    }
  }

  datatype Result<+T, +E> = Success(value: T) | Failure(error: E)

  /** The authenticated user's id, supplied by the identity middleware. */
  type UserId = string

  /** Milliseconds in one day; a calendar day key is `timestamp / DayMs` (UTC). */
  const DayMs: int := 86_400_000

  /** What a schema validator reports for a rejected document (the field path that failed). */
  datatype SchemaError =
    | Missing(path: string)
    | BelowMinimum(path: string)
    | AboveMaximum(path: string)
    | NotInEnum(path: string)

  /** A JavaScript string is truthy exactly when it is non-empty. */
  predicate Present(s: string) { s != "" }

  /** An optional environment/string value that is set and non-empty. */
  predicate PresentOpt(o: Option<string>) { o.Some? && o.value != "" }

  // ---------------------------------------------------------------------------
  // Cloud providers: the enumeration shared by CloudRegion and CloudWorkload.
  // ---------------------------------------------------------------------------

  datatype Provider = Aws | Gcp | Azure | Oracle

  function ProviderName(p: Provider): string {
    match p
    case Aws => "aws"
    case Gcp => "gcp"
    case Azure => "azure"
    case Oracle => "oracle"
  }

  /** Casting a request string to the provider enumeration. */
  function ParseProvider(s: string): (r: Option<Provider>)
    ensures r.Some? ==> ProviderName(r.value) == s
  {
    if s == "aws" then Some(Aws)
    else if s == "gcp" then Some(Gcp)
    else if s == "azure" then Some(Azure)
    else if s == "oracle" then Some(Oracle)
    else None
  }

  lemma ProviderRoundTrip(p: Provider)
    ensures ParseProvider(ProviderName(p)) == Some(p)
  {
  }

  /** Distinct providers have distinct names. */
  lemma ProviderNameInjective(p: Provider, q: Provider)
    ensures ProviderName(p) == ProviderName(q) ==> p == q
  {
  }

  /** Only the four names are accepted: parsing fails for every other string. */
  lemma ParseProviderExact(s: string)
    ensures ParseProvider(s).Some? <==> s in {"aws", "gcp", "azure", "oracle"}
  {
  }

  // ---------------------------------------------------------------------------
  // Folds over sequences.
  // ---------------------------------------------------------------------------

  function Filter<T>(s: seq<T>, keep: T -> bool): (r: seq<T>)
    ensures |r| <= |s|
    ensures forall i :: 0 <= i < |r| ==> r[i] in s && keep(r[i])
    ensures forall i :: 0 <= i < |s| && keep(s[i]) ==> s[i] in r
  {
    if s == [] then [] else (if keep(s[0]) then [s[0]] else []) + Filter(s[1..], keep)
  }

  /** An element is kept exactly when it occurs and satisfies the predicate. */
  lemma FilterMembers<T>(s: seq<T>, keep: T -> bool, x: T)
    ensures x in Filter(s, keep) <==> x in s && keep(x)
  {
    var r := Filter(s, keep);
    if x in r {
      var k :| 0 <= k < |r| && r[k] == x;
    }
    if x in s && keep(x) {
      var k :| 0 <= k < |s| && s[k] == x;
    }
  }

  /** Nothing passes a filter that no element satisfies. */
  lemma {:induction false} FilterNone<T>(s: seq<T>, keep: T -> bool)
    requires forall i :: 0 <= i < |s| ==> !keep(s[i])
    ensures Filter(s, keep) == []
  {
    if s != [] {
      FilterNone(s[1..], keep);
    }
  }

  /** Everything passes a filter that every element satisfies. */
  lemma {:induction false} FilterAll<T>(s: seq<T>, keep: T -> bool)
    requires forall i :: 0 <= i < |s| ==> keep(s[i])
    ensures Filter(s, keep) == s
  {
    if s != [] {
      FilterAll(s[1..], keep);
    }
  }

  /** A filter that keeps exactly the first `n` elements returns that prefix. */
  lemma {:induction false} FilterPrefix<T>(s: seq<T>, n: nat, keep: T -> bool)
    requires n <= |s|
    requires forall i :: 0 <= i < n ==> keep(s[i])
    requires forall i :: n <= i < |s| ==> !keep(s[i])
    ensures Filter(s, keep) == s[..n]
  {
    if n == 0 {
      FilterNone(s, keep);
    } else {
      var rest := s[1..];
      forall i | 0 <= i < n - 1 ensures keep(rest[i]) {
        assert rest[i] == s[i + 1];
      }
      forall i | n - 1 <= i < |rest| ensures !keep(rest[i]) {
        assert rest[i] == s[i + 1];
      }
      FilterPrefix(rest, n - 1, keep);
      assert s[..n] == [s[0]] + rest[..n - 1];
    }
  }

  /** A filter that keeps exactly the elements from position `n` on returns that suffix. */
  lemma {:induction false} FilterSuffix<T>(s: seq<T>, n: nat, keep: T -> bool)
    requires n <= |s|
    requires forall i :: 0 <= i < n ==> !keep(s[i])
    requires forall i :: n <= i < |s| ==> keep(s[i])
    ensures Filter(s, keep) == s[n..]
  {
    if n == 0 {
      FilterAll(s, keep);
    } else {
      var rest := s[1..];
      forall i | 0 <= i < n - 1 ensures !keep(rest[i]) {
        assert rest[i] == s[i + 1];
      }
      forall i | n - 1 <= i < |rest| ensures keep(rest[i]) {
        assert rest[i] == s[i + 1];
      }
      FilterSuffix(rest, n - 1, keep);
      assert s[n..] == rest[n - 1..];
    }
  }

  function Sum<T>(s: seq<T>, f: T -> real): real {
    if s == [] then 0.0 else f(s[0]) + Sum(s[1..], f)
  }

  /** Number of elements satisfying `keep`, i.e. `s.filter(keep).length`. */
  function Count<T>(s: seq<T>, keep: T -> bool): (n: nat)
    ensures n <= |s|
    ensures n == |Filter(s, keep)|
  {
    if s == [] then 0 else (if keep(s[0]) then 1 else 0) + Count(s[1..], keep)
  }

  lemma {:induction false} FilterAppend<T>(a: seq<T>, b: seq<T>, keep: T -> bool)
    ensures Filter(a + b, keep) == Filter(a, keep) + Filter(b, keep)
  {
    if a != [] {
      assert (a + b)[1..] == a[1..] + b;
      FilterAppend(a[1..], b, keep);
    } else {
      assert a + b == b;
    }
  }

  lemma {:induction false} SumAppend<T>(a: seq<T>, b: seq<T>, f: T -> real)
    ensures Sum(a + b, f) == Sum(a, f) + Sum(b, f)
  {
    if a != [] {
      assert (a + b)[1..] == a[1..] + b;
      SumAppend(a[1..], b, f);
    } else {
      assert a + b == b;
    }
  }

  /** A sum of non-negative terms is non-negative. */
  lemma {:induction false} SumNonNegative<T>(s: seq<T>, f: T -> real)
    requires forall x :: x in s ==> f(x) >= 0.0
    ensures Sum(s, f) >= 0.0
  {
    if s != [] {
      SumNonNegative(s[1..], f);
    }
  }

  /** Summing a pointwise difference is the difference of the sums. */
  lemma {:induction false} SumDifference<T>(s: seq<T>, f: T -> real, g: T -> real, h: T -> real)
    requires forall x :: x in s ==> h(x) == f(x) - g(x)
    ensures Sum(s, h) == Sum(s, f) - Sum(s, g)
  {
    if s != [] {
      SumDifference(s[1..], f, g, h);
    }
  }

  /** `Take(s, n)` keeps the first n elements; a limit of 0 means no limit (the store's rule). */
  function Take<T>(s: seq<T>, n: nat): (r: seq<T>)
    ensures |r| == if n == 0 || n >= |s| then |s| else n
    ensures r == s[..|r|]
  {
    if n == 0 || n >= |s| then s else s[..n]
  }

  // ---------------------------------------------------------------------------
  // ASCII case mapping (`String.prototype.toLowerCase` restricted to ASCII).
  // ---------------------------------------------------------------------------

  function LowerChar(c: char): char {
    if 'A' <= c <= 'Z' then (c as int + 32) as char else c
  }

  function Lower(s: string): (r: string)
    ensures |r| == |s|
    ensures forall i :: 0 <= i < |s| ==> r[i] == LowerChar(s[i])
  {
    if s == [] then [] else [LowerChar(s[0])] + Lower(s[1..])
  }
}
