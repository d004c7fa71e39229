/** Shared vocabulary: optional values, JavaScript object properties,
    whitespace trimming, substring tests and index searches over sequences. */
module Base {

  datatype Option<T> = None | Some(value: T)

  /** A property of a JavaScript object as the chat client reads it.
      Missing: the key is absent. Unset: the key is present but holds
      undefined or null. Has(v): the key holds a usable value.
      The distinction matters for object spread, where a present key
      overrides even when it holds undefined. */
  datatype Field<T> = Missing | Unset | Has(value: T)

  /** The value of `{...under, ...over}` at one key. */
  function Overlay<T>(under: Field<T>, over: Field<T>): Field<T> {
    if over.Missing? then under else over
  }

  /** The property after `{key: f}` copies it into a new object literal:
      the key is always present, so an absent value becomes undefined. */
  function Copied<T>(f: Field<T>): Field<T> {
    if f.Has? then f else Unset
  }

  /** What reading the property yields: None for undefined. */
  function AsOption<T>(f: Field<T>): Option<T> {
    if f.Has? then Some(f.value) else None
  }

  /** The property holds a non-empty string (JavaScript truthiness). */
  predicate Truthy(f: Field<string>) {
    f.Has? && f.value != ""
  }

  /** `typeof f === 'string' ? f : ''` */
  function Text(f: Field<string>): string {
    if f.Has? then f.value else ""
  }

  /** `normalizeString`: the trimmed string, or '' for any non-string. */
  function Norm(f: Field<string>): string {
    if f.Has? then Trim(f.value) else ""
  }

  function Abs(x: int): nat {
    if x < 0 then -x else x
  }

  /** The characters that ECMAScript's String.prototype.trim removes:
      WhiteSpace (tab, vertical tab, form feed, space, no-break space,
      byte-order mark, the Unicode space separators) and LineTerminator. */
  predicate IsSpace(c: char) {
    c == '\t' || c == '\n' || c == '\U{0B}' || c == '\U{0C}' || c == '\r' || c == ' '
    || c == '\U{A0}' || c == '\U{1680}' || ('\U{2000}' <= c <= '\U{200A}')
    || c == '\U{2028}' || c == '\U{2029}' || c == '\U{202F}' || c == '\U{205F}'
    || c == '\U{3000}' || c == '\U{FEFF}'
  }

  predicate AllSpace(s: string) {
    forall i :: 0 <= i < |s| ==> IsSpace(s[i])
  }

  function TrimStart(s: string): (r: string)
    ensures |r| <= |s|
    ensures r == [] || !IsSpace(r[0])
  {
    if s != [] && IsSpace(s[0]) then TrimStart(s[1..]) else s
  }

  function TrimEnd(s: string): (r: string)
    ensures |r| <= |s|
    ensures r == [] || !IsSpace(r[|r| - 1])
  {
    if s != [] && IsSpace(s[|s| - 1]) then TrimEnd(s[..|s| - 1]) else s
  }

  /** TrimStart drops a whitespace prefix and keeps the rest. */
  lemma {:induction false} TrimStartShape(s: string)
    ensures TrimStart(s) == s[|s| - |TrimStart(s)|..]
    ensures AllSpace(s[..|s| - |TrimStart(s)|])
  {
    if s != [] && IsSpace(s[0]) {
      TrimStartShape(s[1..]);
      var r := TrimStart(s[1..]);
      assert s[1..][|s| - 1 - |r|..] == s[|s| - |r|..];
      forall i | 0 <= i < |s| - |r| ensures IsSpace(s[i]) {
        if i > 0 {
          assert s[i] == s[1..][..|s| - 1 - |r|][i - 1];
        }
      }
    }
  }

  /** TrimEnd drops a whitespace suffix and keeps the rest. */
  lemma {:induction false} TrimEndShape(s: string)
    ensures TrimEnd(s) == s[..|TrimEnd(s)|]
    ensures AllSpace(s[|TrimEnd(s)|..])
  {
    if s != [] && IsSpace(s[|s| - 1]) {
      var init := s[..|s| - 1];
      TrimEndShape(init);
      var r := TrimEnd(init);
      assert init[..|r|] == s[..|r|];
      forall i | |r| <= i < |s| ensures IsSpace(s[i]) {
        if i < |s| - 1 {
          assert init[|r|..][i - |r|] == s[i];
        }
      }
    }
  }

  /** String.prototype.trim: the longest infix with no whitespace at either end. */
  function Trim(s: string): (r: string)
    ensures |r| <= |s|
    ensures r == [] || (!IsSpace(r[0]) && !IsSpace(r[|r| - 1]))
  {
    TrimEndShape(TrimStart(s));
    TrimEnd(TrimStart(s))
  }

  /** The trimmed string is an infix of the original. */
  lemma TrimIsInfix(s: string) returns (k: nat)
    ensures k + |Trim(s)| <= |s| && Trim(s) == s[k..k + |Trim(s)|]
  {
    var t := TrimStart(s);
    TrimStartShape(s);
    TrimEndShape(t);
    k := |s| - |t|;
    assert Trim(s) == t[..|Trim(s)|];
    assert t[..|Trim(s)|] == s[k..k + |Trim(s)|];
  }

  /** A string trims to the empty string exactly when it is all whitespace. */
  lemma TrimEmptyIffBlank(s: string)
    ensures Trim(s) == [] <==> AllSpace(s)
  {
    var t := TrimStart(s);
    TrimStartShape(s);
    TrimEndShape(t);
    if Trim(s) == [] {
      assert s == s[..|s| - |t|] + t;
      AllSpaceAppend(s[..|s| - |t|], t);
    }
    if AllSpace(s) {
      TrimStartOfBlank(s);
    }
  }

  lemma AllSpaceAppend(a: string, b: string)
    requires AllSpace(a) && AllSpace(b)
    ensures AllSpace(a + b)
  {
    forall i | 0 <= i < |a + b| ensures IsSpace((a + b)[i]) {
      if i < |a| {
        assert (a + b)[i] == a[i];
      } else {
        assert (a + b)[i] == b[i - |a|];
      }
    }
  }

  lemma {:induction false} TrimStartOfBlank(s: string)
    requires AllSpace(s)
    ensures TrimStart(s) == []
  {
    if s != [] {
      assert AllSpace(s[1..]) by {
        forall i | 0 <= i < |s| - 1 ensures IsSpace(s[1..][i]) {
          assert s[1..][i] == s[i + 1];
        }
      }
      TrimStartOfBlank(s[1..]);
    }
  }

  /** A string with no whitespace at either end trims to itself. */
  lemma TrimOfTrimmed(s: string)
    requires s == [] || (!IsSpace(s[0]) && !IsSpace(s[|s| - 1]))
    ensures Trim(s) == s
  {
    assert TrimStart(s) == s;
    assert TrimEnd(s) == s;
  }

  /** Trimming twice is trimming once. */
  lemma TrimIdempotent(s: string)
    ensures Trim(Trim(s)) == Trim(s)
  {
    var r := Trim(s);
    assert TrimStart(r) == r;
    assert TrimEnd(r) == r;
  }

  predicate StartsWith(s: string, prefix: string) {
    |prefix| <= |s| && s[..|prefix|] == prefix
  }

  /** String.prototype.includes */
  predicate Contains(s: string, sub: string)
    decreases |s|
  {
    StartsWith(s, sub) || (s != [] && Contains(s[1..], sub))
  }

  /** ASCII case folding; see README for the Unicode cases left out. */
  function ToLower(s: string): (r: string)
    ensures |r| == |s|
  {
    if s == [] then []
    else [if 'A' <= s[0] <= 'Z' then (s[0] as int + 32) as char else s[0]] + ToLower(s[1..])
  }

  /** Array.prototype.findIndex */
  function FirstIndex<T>(s: seq<T>, p: T -> bool): (r: int)
    ensures -1 <= r < |s|
    ensures r >= 0 ==> p(s[r]) && forall j :: 0 <= j < r ==> !p(s[j])
    ensures r < 0 ==> forall j :: 0 <= j < |s| ==> !p(s[j])
  {
    if s == [] then -1
    else if p(s[0]) then 0
    else
      var k := FirstIndex(s[1..], p);
      if k < 0 then -1 else k + 1
  }

  /** The index of the last element satisfying p, or -1. */
  function LastIndex<T>(s: seq<T>, p: T -> bool): (r: int)
    ensures -1 <= r < |s|
    ensures r >= 0 ==> p(s[r]) && forall j :: r < j < |s| ==> !p(s[j])
    ensures r < 0 ==> forall j :: 0 <= j < |s| ==> !p(s[j])
  {
    if s == [] then -1
    else if p(s[|s| - 1]) then |s| - 1
    else LastIndex(s[..|s| - 1], p)
  }

  /** Array.prototype.filter */
  function Filter<T>(s: seq<T>, p: T -> bool): (r: seq<T>)
    ensures |r| <= |s|
    ensures forall i :: 0 <= i < |r| ==> p(r[i]) && r[i] in s
    ensures forall i :: 0 <= i < |s| && p(s[i]) ==> s[i] in r
  {
    if s == [] then []
    else if p(s[0]) then [s[0]] + Filter(s[1..], p)
    else Filter(s[1..], p)
  }

  /** Filtering a concatenation filters each part. */
  lemma {:induction false} FilterAppend<T>(a: seq<T>, b: seq<T>, p: T -> bool)
    ensures Filter(a + b, p) == Filter(a, p) + Filter(b, p)
  {
    if a != [] {
      assert (a + b)[0] == a[0];
      assert (a + b)[1..] == a[1..] + b;
      FilterAppend(a[1..], b, p);
      if p(a[0]) {
        calc {
          Filter(a + b, p);
          [a[0]] + Filter(a[1..] + b, p);
          [a[0]] + (Filter(a[1..], p) + Filter(b, p));
          ([a[0]] + Filter(a[1..], p)) + Filter(b, p);
          Filter(a, p) + Filter(b, p);
        }
      } else {
        calc {
          Filter(a + b, p);
          Filter(a[1..] + b, p);
          Filter(a[1..], p) + Filter(b, p);
          Filter(a, p) + Filter(b, p);
        }
      }
    } else {
      assert a + b == b;
    }
  }

  /** Filtering one more element of s extends the filtered prefix by it
      when it passes. */
  lemma FilterSnoc<T>(s: seq<T>, i: nat, p: T -> bool)
    requires i < |s|
    ensures Filter(s[..i + 1], p) == Filter(s[..i], p) + (if p(s[i]) then [s[i]] else [])
  {
    assert s[..i + 1] == s[..i] + [s[i]];
    FilterAppend(s[..i], [s[i]], p);
  }

  /** Filtering out every element leaves nothing. */
  lemma {:induction false} FilterNone<T>(s: seq<T>, p: T -> bool)
    requires forall i :: 0 <= i < |s| ==> !p(s[i])
    ensures Filter(s, p) == []
  {
    if s != [] {
      assert forall i :: 0 <= i < |s| - 1 ==> s[1..][i] == s[i + 1];
      FilterNone(s[1..], p);
    }
  }

  /** Filtering with a predicate every element meets changes nothing. */
  lemma {:induction false} FilterAll<T>(s: seq<T>, p: T -> bool)
    requires forall i :: 0 <= i < |s| ==> p(s[i])
    ensures Filter(s, p) == s
  {
    if s != [] {
      assert forall i :: 0 <= i < |s| - 1 ==> s[1..][i] == s[i + 1];
      FilterAll(s[1..], p);
    }
  }

  /** Filtering with the same predicate again changes nothing. */
  lemma {:induction false} FilterIdempotent<T>(s: seq<T>, p: T -> bool)
    ensures Filter(Filter(s, p), p) == Filter(s, p)
  {
    if s != [] {
      FilterIdempotent(s[1..], p);
    }
  }

  /** From position i of s on, each element is appended to acc when
      keep accepts it given the list built so far. */
  function AppendWhere<T>(acc: seq<T>, s: seq<T>, i: nat, keep: (T, seq<T>) -> bool): seq<T>
    requires i <= |s|
    decreases |s| - i
  {
    if i == |s| then acc
    else AppendWhere(if keep(s[i], acc) then acc + [s[i]] else acc, s, i + 1, keep)
  }

  /** The list built so far is kept as a prefix, and every element after
      it comes from s and was accepted given everything before it. */
  lemma {:induction false} AppendWhereShape<T>(acc: seq<T>, s: seq<T>, i: nat, keep: (T, seq<T>) -> bool)
    requires i <= |s|
    ensures var r := AppendWhere(acc, s, i, keep);
            |acc| <= |r| && r[..|acc|] == acc
            && forall j :: |acc| <= j < |r| ==> r[j] in s[i..] && keep(r[j], r[..j])
    decreases |s| - i
  {
    if i < |s| {
      var x := s[i];
      var next := if keep(x, acc) then acc + [x] else acc;
      AppendWhereShape(next, s, i + 1, keep);
      var r := AppendWhere(next, s, i + 1, keep);
      assert r == AppendWhere(acc, s, i, keep);
      assert r[..|acc|] == next[..|acc|] == acc;
      forall j | |acc| <= j < |r|
        ensures r[j] in s[i..] && keep(r[j], r[..j])
      {
        if j < |next| {
          assert j == |acc| && next == acc + [x];
          assert r[j] == next[j] == x == s[i..][0] && r[..j] == acc;
        } else {
          assert r[j] in s[i + 1..];
          var k :| i + 1 <= k < |s| && s[k] == r[j];
          assert s[i..][k - i] == r[j];
        }
      }
    }
  }

  /** Running the fold up to position k and then on from k is the whole
      fold: the list built before step k is AppendWhere over s[..k]. */
  lemma {:induction false} AppendWhereSplit<T>(acc: seq<T>, s: seq<T>, i: nat, k: nat, keep: (T, seq<T>) -> bool)
    requires i <= k <= |s|
    ensures AppendWhere(acc, s, i, keep) == AppendWhere(AppendWhere(acc, s[..k], i, keep), s, k, keep)
    decreases k - i
  {
    if i < k {
      var next := if keep(s[i], acc) then acc + [s[i]] else acc;
      assert s[..k][i] == s[i];
      assert AppendWhere(acc, s[..k], i, keep) == AppendWhere(next, s[..k], i + 1, keep);
      AppendWhereSplit(next, s, i + 1, k, keep);
    }
  }

  /** An element accepted against the list built before it is in the
      result, right after that list. */
  lemma AppendWhereKeeps<T>(acc: seq<T>, s: seq<T>, i: nat, k: nat, keep: (T, seq<T>) -> bool)
    requires i <= k < |s|
    requires keep(s[k], AppendWhere(acc, s[..k], i, keep))
    ensures var before := AppendWhere(acc, s[..k], i, keep);
            var r := AppendWhere(acc, s, i, keep);
            |before| < |r| && r[..|before|] == before && r[|before|] == s[k]
  {
    var before := AppendWhere(acc, s[..k], i, keep);
    AppendWhereSplit(acc, s, i, k, keep);
    assert AppendWhere(before, s, k, keep) == AppendWhere(before + [s[k]], s, k + 1, keep);
    AppendWhereShape(before + [s[k]], s, k + 1, keep);
    var r := AppendWhere(acc, s, i, keep);
    assert r[..|before| + 1] == before + [s[k]];
    assert r[..|before|] == (before + [s[k]])[..|before|];
  }

  /** Each element mapped to a list, the lists concatenated in order. */
  function ConcatMap<T, U>(s: seq<T>, f: T -> seq<U>): seq<U> {
    if s == [] then [] else ConcatMap(s[..|s| - 1], f) + f(s[|s| - 1])
  }

  lemma {:induction false} ConcatMapAppend<T, U>(a: seq<T>, b: seq<T>, f: T -> seq<U>)
    ensures ConcatMap(a + b, f) == ConcatMap(a, f) + ConcatMap(b, f)
    decreases |b|
  {
    if b == [] {
      assert a + b == a;
    } else {
      var init := b[..|b| - 1];
      assert (a + b)[..|a + b| - 1] == a + init;
      assert (a + b)[|a + b| - 1] == b[|b| - 1];
      ConcatMapAppend(a, init, f);
    }
  }

  lemma ConcatMapOfFour<T, U>(a: T, b: T, c: T, d: T, f: T -> seq<U>)
    ensures ConcatMap([a, b, c, d], f) == f(a) + f(b) + f(c) + f(d)
  {
    assert [a, b, c, d][..3] == [a, b, c];
    assert [a, b, c][..2] == [a, b];
    assert [a, b][..1] == [a];
    assert [a][..0] == [];
    assert ConcatMap([a], f) == f(a);
    assert ConcatMap([a, b], f) == f(a) + f(b);
    assert ConcatMap([a, b, c], f) == f(a) + f(b) + f(c);
  }

  /** Everything an element maps to appears in the result. */
  lemma {:induction false} ConcatMapHas<T, U>(s: seq<T>, f: T -> seq<U>, k: nat, x: U)
    requires k < |s| && x in f(s[k])
    ensures x in ConcatMap(s, f)
  {
    if k < |s| - 1 {
      ConcatMapHas(s[..|s| - 1], f, k, x);
    }
  }

  /** A value no element maps to does not appear in the result. */
  lemma {:induction false} ConcatMapAvoids<T, U>(s: seq<T>, f: T -> seq<U>, x: U)
    requires forall i :: 0 <= i < |s| ==> x !in f(s[i])
    ensures x !in ConcatMap(s, f)
  {
    if s != [] {
      ConcatMapAvoids(s[..|s| - 1], f, x);
    }
  }

  /** When every element maps to at most one value, the result is no
      longer than the input. */
  lemma {:induction false} ConcatMapShort<T, U>(s: seq<T>, f: T -> seq<U>)
    requires forall i :: 0 <= i < |s| ==> |f(s[i])| <= 1
    ensures |ConcatMap(s, f)| <= |s|
  {
    if s != [] {
      ConcatMapShort(s[..|s| - 1], f);
    }
  }

  /** The union of the sets the elements map to. */
  function UnionMap<T, U>(s: seq<T>, f: T -> set<U>): set<U> {
    if s == [] then {} else UnionMap(s[..|s| - 1], f) + f(s[|s| - 1])
  }

  lemma {:induction false} UnionMapHas<T, U>(s: seq<T>, f: T -> set<U>, x: U)
    ensures x in UnionMap(s, f) <==> exists i :: 0 <= i < |s| && x in f(s[i])
  {
    if s != [] {
      var n := |s| - 1;
      UnionMapHas(s[..n], f, x);
      assert forall i :: 0 <= i < n ==> s[..n][i] == s[i];
    }
  }

  /** The elements indexed by their key, later elements replacing
      earlier ones with the same key; elements without a key are skipped. */
  function IndexBy<T, K>(s: seq<T>, key: T -> Option<K>): map<K, T> {
    if s == [] then map[]
    else
      var prev := IndexBy(s[..|s| - 1], key);
      var k := key(s[|s| - 1]);
      if k.Some? then prev[k.value := s[|s| - 1]] else prev
  }

  /** A key is present exactly when some element has it, and it maps to
      the last such element. */
  lemma {:induction false} IndexByLastWins<T, K>(s: seq<T>, key: T -> Option<K>, k: K)
    ensures k in IndexBy(s, key) <==> exists i :: 0 <= i < |s| && key(s[i]) == Some(k)
    ensures k in IndexBy(s, key) ==>
              exists i :: 0 <= i < |s| && key(s[i]) == Some(k) && IndexBy(s, key)[k] == s[i]
                          && forall j :: i < j < |s| ==> key(s[j]) != Some(k)
  {
    if s != [] {
      var n := |s| - 1;
      var init := s[..n];
      IndexByLastWins(init, key, k);
      assert forall i :: 0 <= i < n ==> init[i] == s[i];
      if key(s[n]) != Some(k) && k in IndexBy(s, key) {
        var i :| 0 <= i < n && key(init[i]) == Some(k) && IndexBy(init, key)[k] == init[i]
                 && forall j :: i < j < n ==> key(init[j]) != Some(k);
        assert key(s[i]) == Some(k) && IndexBy(s, key)[k] == s[i];
      }
    }
  }
}
