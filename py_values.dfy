/** Python values as they flow through the enrichment pipeline, records as
    Python dictionaries, and the handful of built-ins the stages rely on:
    truthiness, `pd.isna`, `str` of a scalar, `str.strip` and slicing. */
module PyValues {

  datatype Option<+T> = None | Some(value: T)

  /** The outcome of a Python call that may raise; an exception is kept as the
      text `str(e)` gives for it. */
  datatype Outcome<+T> = Done(value: T) | Raised(message: string)

  /** A value held in a record: a loaded cell, a parsed JSON reply or a field a
      stage adds. */
  datatype Value =
    | Null                              // None, JSON null
    | NaN                               // the missing-cell marker pandas loads (NaN, NaT)
    | Str(s: string)
    | Atom(text: string, truthy: bool)  // a number or boolean: its str() text and bool()
    | List(items: seq<Value>)
    | Dict(entries: seq<(string, Value)>)

  /** A Python dict with string keys, in insertion order. */
  type Record = seq<(string, Value)>

  function Keys(r: Record): (ks: seq<string>)
    ensures |ks| == |r|
  {
    seq(|r|, i requires 0 <= i < |r| => r[i].0)
  }

  /** Python dicts never hold a key twice. */
  predicate UniqueKeys(r: Record)
  {
    forall i, j :: 0 <= i < j < |r| ==> r[i].0 != r[j].0
  }

  lemma KeysCons(r: Record)
    requires r != []
    ensures Keys(r) == [r[0].0] + Keys(r[1..])
  {
  }

  /** `d.get(k)`: the value stored under `k`, if any. */
  function Get(r: Record, k: string): (o: Option<Value>)
    ensures o.Some? <==> k in Keys(r)
  {
    if r == [] then None
    else KeysCons(r); if r[0].0 == k then Some(r[0].1) else Get(r[1..], k)
  }

  /** `d[k] = v`: an existing key keeps its value's position, a new key goes last. */
  function Set(r: Record, k: string, v: Value): (r': Record)
    ensures forall p :: p in r' ==> p == (k, v) || p in r
  {
    if r == [] then [(k, v)]
    else if r[0].0 == k then [(k, v)] + r[1..]
    else [r[0]] + Set(r[1..], k, v)
  }

  /** After `d[k] = v`, `d[k]` is `v` and every other key's value is as it was. */
  lemma {:induction false} SetFrame(r: Record, k: string, v: Value)
    ensures Get(Set(r, k, v), k) == Some(v)
    ensures forall k' :: k' != k ==> Get(Set(r, k, v), k') == Get(r, k')
  {
    if r != [] && r[0].0 != k {
      SetFrame(r[1..], k, v);
    }
  }

  /** Setting a key that is absent appends it. */
  lemma SetAbsent(r: Record, k: string, v: Value)
    requires k !in Keys(r)
    ensures Set(r, k, v) == r + [(k, v)]
  {
    if r != [] {
      KeysCons(r);
      SetAbsent(r[1..], k, v);
    }
  }

  /** Setting a key that is present keeps every key in its place. */
  lemma {:induction false} SetPresent(r: Record, k: string, v: Value)
    requires k in Keys(r)
    ensures Keys(Set(r, k, v)) == Keys(r)
  {
    KeysCons(r);
    if r[0].0 != k {
      SetPresent(r[1..], k, v);
      KeysCons(Set(r, k, v));
    } else {
      KeysCons(Set(r, k, v));
    }
  }

  /** `d[k] = v` keeps the keys unique and the other keys in their order. */
  lemma SetKeys(r: Record, k: string, v: Value)
    ensures Keys(Set(r, k, v)) == if k in Keys(r) then Keys(r) else Keys(r) + [k]
    ensures UniqueKeys(r) ==> UniqueKeys(Set(r, k, v))
  {
    if k in Keys(r) {
      SetPresent(r, k, v);
      var r' := Set(r, k, v);
      assert forall i :: 0 <= i < |r'| ==> r'[i].0 == Keys(r')[i];
      assert forall i :: 0 <= i < |r| ==> r[i].0 == Keys(r)[i];
    } else {
      SetAbsent(r, k, v);
      assert forall i :: 0 <= i < |r| ==> r[i].0 == Keys(r)[i];
    }
  }

  /** Python's `bool(v)`. */
  predicate Truthy(v: Value)
  {
    match v
    case Null => false
    case NaN => true
    case Str(s) => s != ""
    case Atom(_, t) => t
    case List(xs) => |xs| > 0
    case Dict(es) => |es| > 0
  }

  /** `bool(d.get(k))`: an absent key reads as None. */
  predicate TruthyAt(r: Record, k: string)
  {
    Get(r, k).Some? && Truthy(Get(r, k).value)
  }

  predicate IsScalar(v: Value)
  {
    !v.List? && !v.Dict?
  }

  /** `pd.isna` of a scalar cell. */
  predicate IsNa(v: Value)
  {
    v.Null? || v.NaN?
  }

  /** `str(v)` of a scalar. */
  function ScalarStr(v: Value): (s: string)
    requires IsScalar(v)
    ensures v.Str? ==> s == v.s
  {
    match v
    case Null => "None"
    case NaN => "nan"
    case Str(s) => s
    case Atom(t, _) => t
  }

  /** Characters for which Python's `str.isspace()` holds. */
  predicate IsSpace(c: char)
  {
    c == ' ' || '\t' <= c <= '\r' || '\U{1c}' <= c <= '\U{1f}' || c == '\U{85}' || c == '\U{a0}'
    || c == '\U{1680}' || '\U{2000}' <= c <= '\U{200a}' || c == '\U{2028}' || c == '\U{2029}'
    || c == '\U{202f}' || c == '\U{205f}' || c == '\U{3000}'
  }

  function TrimStart(s: string): string
  {
    if |s| > 0 && IsSpace(s[0]) then TrimStart(s[1..]) else s
  }

  function TrimEnd(s: string): string
  {
    if |s| > 0 && IsSpace(s[|s| - 1]) then TrimEnd(s[..|s| - 1]) else s
  }

  /** `s.strip()` */
  function Strip(s: string): string
  {
    TrimEnd(TrimStart(s))
  }

  /** Neither end of `s` is whitespace. */
  predicate Stripped(s: string)
  {
    |s| == 0 || (!IsSpace(s[0]) && !IsSpace(s[|s| - 1]))
  }

  /** Trimming the start drops a prefix, the `i` returned long. */
  lemma {:induction false} TrimStartDrops(s: string) returns (i: nat)
    ensures i <= |s| && TrimStart(s) == s[i..]
    ensures |TrimStart(s)| > 0 ==> !IsSpace(TrimStart(s)[0])
  {
    if |s| > 0 && IsSpace(s[0]) {
      var k := TrimStartDrops(s[1..]);
      i := k + 1;
      assert s[1..][k..] == s[i..];
    } else {
      i := 0;
    }
  }

  /** Trimming the end keeps a prefix, the `j` returned long. */
  lemma {:induction false} TrimEndKeeps(s: string) returns (j: nat)
    ensures j <= |s| && TrimEnd(s) == s[..j]
    ensures |TrimEnd(s)| > 0 ==> !IsSpace(TrimEnd(s)[|TrimEnd(s)| - 1])
  {
    if |s| > 0 && IsSpace(s[|s| - 1]) {
      j := TrimEndKeeps(s[..|s| - 1]);
      assert s[..|s| - 1][..j] == s[..j];
    } else {
      j := |s|;
    }
  }

  /** `s.strip()` is a piece of `s` with no whitespace at either end. */
  lemma StripResult(s: string)
    ensures Stripped(Strip(s))
    ensures exists i, j :: 0 <= i <= j <= |s| && Strip(s) == s[i..j]
  {
    var t := TrimStart(s);
    var i := TrimStartDrops(s);
    var j := TrimEndKeeps(t);
    assert Strip(s) == s[i..i + j];
    if j > 0 {
      assert Strip(s)[0] == t[0];
    }
  }

  lemma StripKeepsStripped(s: string)
    requires Stripped(s)
    ensures Strip(s) == s
  {
  }

  /** Stripping twice strips nothing more. */
  lemma StripIdempotent(s: string)
    ensures Strip(Strip(s)) == Strip(s)
  {
    StripResult(s);
    StripKeepsStripped(Strip(s));
  }

  /** Where a Python slice bound `i` lands in a sequence of length `n`. */
  function SliceBound(i: int, n: nat): (b: nat)
    ensures b <= n
    ensures 0 <= i ==> b == if i < n then i else n
    ensures i < 0 ==> b == if i + n < 0 then 0 else i + n
  {
    if i < 0 then (if i + n < 0 then 0 else i + n) else if i > n then n else i
  }

  /** Python's `s[i:j]` for integer bounds, negative ones counting from the end. */
  function PySlice<T>(s: seq<T>, i: int, j: int): seq<T>
  {
    var a, b := SliceBound(i, |s|), SliceBound(j, |s|);
    if a < b then s[a..b] else []
  }

  function Min(a: int, b: int): int { if a < b then a else b }

  function Max(a: int, b: int): int { if a < b then b else a }

  /** For non-negative bounds a slice holds max(0, min(j,n) - min(i,n)) elements,
      the ones from position min(i, n) on. */
  lemma PySliceNonNegative<T>(s: seq<T>, i: int, j: int)
    requires 0 <= i && 0 <= j
    ensures |PySlice(s, i, j)| == Max(0, Min(j, |s|) - Min(i, |s|))
    ensures forall k :: 0 <= k < |PySlice(s, i, j)| ==> PySlice(s, i, j)[k] == s[Min(i, |s|) + k]
  {
  }
}
