/** Shared vocabulary: an Option type, the few Python string operations the
    package relies on (written out over `seq<char>`), and insertion-ordered
    dictionaries, which the package uses to keep forms in declaration order. */
module Common {

  datatype Option<T> = None | Some(value: T)

  /** Python's `str.lower()` restricted to ASCII letters. */
  function LowerChar(c: char): char
  {
    if 'A' <= c <= 'Z' then (c as int + 32) as char else c
  }

  function Lower(s: string): (r: string)
    ensures |r| == |s|
    ensures forall i :: 0 <= i < |s| ==> r[i] == LowerChar(s[i])
  {
    seq(|s|, i requires 0 <= i < |s| => LowerChar(s[i]))
  }

  lemma LowerIdempotent(s: string)
    ensures Lower(Lower(s)) == Lower(s)
  {
    assert forall i :: 0 <= i < |s| ==> LowerChar(LowerChar(s[i])) == LowerChar(s[i]);
  }

  /** Case-insensitive equality as used by the ORM's `__iexact` lookups. */
  predicate IEquals(a: string, b: string)
  {
    Lower(a) == Lower(b)
  }

  /** Position of the first occurrence of `c` in `s`, if any. */
  function IndexOf(s: string, c: char): (r: Option<nat>)
    ensures r.None? <==> c !in s
    ensures r.Some? ==> r.value < |s| && s[r.value] == c && c !in s[..r.value]
  {
    if |s| == 0 then None
    else if s[0] == c then Some(0)
    else
      match IndexOf(s[1..], c)
      case None => None
      case Some(i) =>
        assert s[1..][..i] == s[1..i + 1];
        Some(i + 1)
  }

  /** Python's `s.partition(c)`: the text before the first `c`, and the text
      after it (empty when `c` does not occur). */
  function Before(s: string, c: char): (r: string)
    ensures c !in r
    ensures r <= s
    ensures c in s ==> |r| < |s| && s[|r|] == c
    ensures c !in s ==> r == s
  {
    match IndexOf(s, c)
    case None => s
    case Some(i) => s[..i]
  }

  function After(s: string, c: char): (r: string)
    ensures c in s ==> s == Before(s, c) + [c] + r
    ensures c !in s ==> r == []
  {
    match IndexOf(s, c)
    case None => []
    case Some(i) => s[i + 1..]
  }

  /** Partitioning `p + [c] + rest` at its first `c`, when `p` has none, gives back `p` and `rest`. */
  lemma PartitionConcat(p: string, rest: string, c: char)
    requires c !in p
    ensures Before(p + [c] + rest, c) == p
    ensures After(p + [c] + rest, c) == rest
  {
    var s := p + [c] + rest;
    assert s[|p|] == c;
    var b := Before(s, c);
    assert b == p;
    assert s == b + [c] + rest;
  }

  /** Python's `s.split(c)` for a one-character separator. */
  function Split(s: string, c: char): (parts: seq<string>)
    ensures |parts| > 0
    ensures forall i :: 0 <= i < |parts| ==> c !in parts[i]
    decreases |s|
  {
    if c in s then [Before(s, c)] + Split(After(s, c), c) else [s]
  }

  /** Python's `c.join(parts)`. */
  function Join(parts: seq<string>, c: char): string
    requires |parts| > 0
  {
    if |parts| == 1 then parts[0] else parts[0] + [c] + Join(parts[1..], c)
  }

  /** Splitting a joined list gives the list back when no part holds the separator. */
  lemma {:induction false} SplitJoin(parts: seq<string>, c: char)
    requires |parts| > 0 && forall i :: 0 <= i < |parts| ==> c !in parts[i]
    ensures Split(Join(parts, c), c) == parts
  {
    if |parts| > 1 {
      PartitionConcat(parts[0], Join(parts[1..], c), c);
      SplitJoin(parts[1..], c);
    }
  }

  /** Joining the parts of a split gives the text back. */
  lemma {:induction false} JoinSplit(s: string, c: char)
    ensures Join(Split(s, c), c) == s
    decreases |s|
  {
    if c in s {
      JoinSplit(After(s, c), c);
    }
  }

  /** Number of occurrences of `c` in `s` (Python's `s.count(c)`). */
  function Count(s: string, c: char): (n: nat)
    ensures n <= |s|
    ensures n == 0 <==> c !in s
  {
    if |s| == 0 then 0 else (if s[0] == c then 1 else 0) + Count(s[1..], c)
  }

  lemma {:induction false} CountAppend(a: string, b: string, c: char)
    ensures Count(a + b, c) == Count(a, c) + Count(b, c)
  {
    if |a| == 0 {
      assert a + b == b;
    } else {
      assert (a + b)[1..] == a[1..] + b;
      CountAppend(a[1..], b, c);
    }
  }

  /** Dropping everything up to and including the first `c` removes exactly one `c`. */
  lemma {:induction false} CountAfter(s: string, c: char)
    requires c in s
    ensures Count(After(s, c), c) + 1 == Count(s, c)
  {
    var b, a := Before(s, c), After(s, c);
    assert s == b + ([c] + a);
    CountAppend(b, [c] + a, c);
    assert ([c] + a)[1..] == a;
    assert Count([c] + a, c) == 1 + Count(a, c);
  }

  predicate IsPrefix(p: string, s: string)
  {
    |p| <= |s| && s[..|p|] == p
  }

  predicate OccursAt(s: string, sub: string, i: int)
  {
    0 <= i <= |s| - |sub| && s[i..i + |sub|] == sub
  }

  /** Python's `sub in s` for strings. */
  function Contains(s: string, sub: string): (b: bool)
    ensures b <==> exists i :: OccursAt(s, sub, i)
    decreases |s|
  {
    if IsPrefix(sub, s) then
      assert OccursAt(s, sub, 0);
      true
    else if |s| == 0 then false
    else
      var rest := Contains(s[1..], sub);
      assert forall i :: OccursAt(s[1..], sub, i) <==> OccursAt(s, sub, i + 1);
      assert forall i :: OccursAt(s, sub, i) ==> i == 0 || OccursAt(s[1..], sub, i - 1);
      rest
  }

  /** A text without the first character of `sub` does not contain `sub`. */
  lemma NotContainsFirst(s: string, sub: string)
    requires |sub| > 0 && sub[0] !in s
    ensures !Contains(s, sub)
  {
    forall i | 0 <= i <= |s| - |sub|
      ensures !OccursAt(s, sub, i)
    {
      assert s[i..i + |sub|][0] == s[i];
    }
  }

  /** Python's `s.replace(pat, '')`: removes non-overlapping occurrences of
      `pat`, scanning from the left. */
  function RemoveAll(s: string, pat: string): (r: string)
    requires |pat| > 0
    ensures |r| <= |s|
    decreases |s|
  {
    if |s| == 0 then []
    else if IsPrefix(pat, s) then RemoveAll(s[|pat|..], pat)
    else [s[0]] + RemoveAll(s[1..], pat)
  }

  /** A text without any occurrence of the pattern comes back unchanged. */
  lemma {:induction false} RemoveAllAbsent(s: string, pat: string)
    requires |pat| > 0 && !Contains(s, pat)
    ensures RemoveAll(s, pat) == s
    decreases |s|
  {
    if |s| > 0 {
      assert !OccursAt(s, pat, 0);
      assert forall i :: OccursAt(s[1..], pat, i) ==> OccursAt(s, pat, i + 1);
      RemoveAllAbsent(s[1..], pat);
    }
  }

  /** Removing a pattern from `a + pat` when no occurrence of it starts inside `a`. */
  lemma {:induction false} RemoveAllSuffix(a: string, pat: string)
    requires |pat| > 0
    requires forall i :: 0 <= i < |a| ==> !OccursAt(a + pat, pat, i)
    ensures RemoveAll(a + pat, pat) == a
    decreases |a|
  {
    if |a| == 0 {
      assert a + pat == pat;
      assert pat[|pat|..] == [];
    } else {
      assert !OccursAt(a + pat, pat, 0);
      assert (a + pat)[1..] == a[1..] + pat;
      assert forall i :: OccursAt(a[1..] + pat, pat, i) ==> OccursAt(a + pat, pat, i + 1);
      RemoveAllSuffix(a[1..], pat);
    }
  }

  // ---------------------------------------------------------------------
  // Insertion-ordered dictionaries (Python's OrderedDict, and `dict` since 3.7)

  type ODict<V> = seq<(string, V)>

  function Keys<V>(d: ODict<V>): (ks: seq<string>)
    ensures |ks| == |d|
    ensures forall i :: 0 <= i < |d| ==> ks[i] == d[i].0
  {
    if |d| == 0 then [] else [d[0].0] + Keys(d[1..])
  }

  predicate DistinctKeys<V>(d: ODict<V>)
  {
    forall i, j :: 0 <= i < j < |d| ==> d[i].0 != d[j].0
  }

  /** `d.get(k)`: the value of the first entry with key `k`. */
  function Get<V>(d: ODict<V>, k: string): (r: Option<V>)
    ensures r.None? <==> k !in Keys(d)
    ensures r.Some? ==> exists i :: 0 <= i < |d| && d[i] == (k, r.value)
  {
    if |d| == 0 then None
    else if d[0].0 == k then Some(d[0].1)
    else
      var r := Get(d[1..], k);
      assert forall i :: 1 <= i < |d| ==> d[i] == d[1..][i - 1];
      r
  }

  /** `d[k] = v`: an existing key keeps its position, a new key goes last. */
  function Put<V>(d: ODict<V>, k: string, v: V): (r: ODict<V>)
  {
    if |d| == 0 then [(k, v)]
    else if d[0].0 == k then [(k, v)] + d[1..]
    else [d[0]] + Put(d[1..], k, v)
  }

  /** Assigning an existing key neither moves nor adds a key. */
  lemma {:induction false} PutKeysExisting<V>(d: ODict<V>, k: string, v: V)
    requires k in Keys(d)
    ensures Keys(Put(d, k, v)) == Keys(d)
  {
    if d[0].0 != k {
      PutKeysExisting(d[1..], k, v);
    }
  }

  /** Assigning a new key appends it. */
  lemma {:induction false} PutNew<V>(d: ODict<V>, k: string, v: V)
    requires k !in Keys(d)
    ensures Put(d, k, v) == d + [(k, v)]
  {
    if |d| > 0 {
      PutNew(d[1..], k, v);
      assert [d[0]] + (d[1..] + [(k, v)]) == d + [(k, v)];
    }
  }

  /** After `d[k] = v`, `k` maps to `v`. */
  lemma {:induction false} PutGet<V>(d: ODict<V>, k: string, v: V)
    ensures Get(Put(d, k, v), k) == Some(v)
  {
    if |d| > 0 && d[0].0 != k {
      PutGet(d[1..], k, v);
    }
  }

  /** After `d[k] = v`, every other key keeps its value. */
  lemma {:induction false} PutOther<V>(d: ODict<V>, k: string, v: V, k': string)
    requires k' != k
    ensures Get(Put(d, k, v), k') == Get(d, k')
  {
    if |d| > 0 && d[0].0 != k {
      PutOther(d[1..], k, v, k');
    }
  }

  /** What `d[k] = v` does to the key order: unchanged when `k` is present,
      `k` appended otherwise. */
  lemma PutKeys<V>(d: ODict<V>, k: string, v: V)
    ensures Keys(Put(d, k, v)) == if k in Keys(d) then Keys(d) else Keys(d) + [k]
  {
    if k in Keys(d) {
      PutKeysExisting(d, k, v);
    } else {
      PutNew(d, k, v);
      KeysAppend(d, [(k, v)]);
    }
  }

  lemma {:induction false} KeysAppend<V>(a: ODict<V>, b: ODict<V>)
    ensures Keys(a + b) == Keys(a) + Keys(b)
  {
    if |a| > 0 {
      assert (a + b)[1..] == a[1..] + b;
      KeysAppend(a[1..], b);
    } else {
      assert a + b == b;
    }
  }

  /** Distinct keys are kept by `d[k] = v`. */
  lemma PutDistinct<V>(d: ODict<V>, k: string, v: V)
    requires DistinctKeys(d)
    ensures DistinctKeys(Put(d, k, v))
  {
    PutKeys(d, k, v);
    var r := Put(d, k, v);
    assert Keys(r) == if k in Keys(d) then Keys(d) else Keys(d) + [k];
  }

  /** Position of key `k`, if present. */
  function IndexOfKey<V>(d: ODict<V>, k: string): (r: Option<nat>)
    ensures r.None? <==> k !in Keys(d)
    ensures r.Some? ==> r.value < |d| && d[r.value].0 == k &&
                        forall j :: 0 <= j < r.value ==> d[j].0 != k
  {
    if |d| == 0 then None
    else if d[0].0 == k then Some(0)
    else
      match IndexOfKey(d[1..], k)
      case None => None
      case Some(i) => Some(i + 1)
  }

  /** `del d[k]` (and `OrderedDict.pop`): the entries with key `k` are
      dropped, every other entry keeps its value and its order. */
  function Remove<V>(d: ODict<V>, k: string): (r: ODict<V>)
    ensures forall k' :: k' in Keys(r) <==> k' in Keys(d) && k' != k
    ensures forall k' :: k' != k ==> Get(r, k') == Get(d, k')
    ensures DistinctKeys(d) ==> DistinctKeys(r)
  {
    if |d| == 0 then []
    else
      var rest := Remove(d[1..], k);
      assert forall k' :: k' in Keys(d) <==> k' == d[0].0 || k' in Keys(d[1..]);
      if d[0].0 == k then rest
      else
        var r := [d[0]] + rest;
        assert DistinctKeys(d) ==> DistinctKeys(d[1..]) && d[0].0 !in Keys(d[1..]);
        assert forall j :: 0 < j < |r| ==> r[j].0 == Keys(rest)[j - 1];
        r
  }

  /** Assigning to the key at position `i` of a dictionary replaces that
      entry in place. */
  lemma {:induction false} PutAt<V>(d: ODict<V>, i: nat, v: V)
    requires DistinctKeys(d) && i < |d|
    ensures Put(d, d[i].0, v) == d[i := (d[i].0, v)]
  {
    if i > 0 {
      assert d[0].0 != d[i].0;
      assert d[1..][i - 1] == d[i];
      PutAt(d[1..], i - 1, v);
      assert [d[0]] + d[1..][i - 1 := (d[i].0, v)] == d[i := (d[i].0, v)];
    }
  }
}
