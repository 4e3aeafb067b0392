/** What the pages know about a chosen file, and the list helpers the pages
    use to sort a drop into accepted and rejected files. */
module Files {
  import opened Text

  /** A browser `File`: its name, its MIME type and its size in bytes. */
  datatype FileRef = FileRef(name: string, mimeType: string, size: nat)

  const MiB: nat := 1024 * 1024

  /** `getFileExtension`: the text after the last dot, lower-cased (the whole
      name when it has no dot). */
  function Extension(name: string): (e: string)
    ensures IsLowerCase(e) && '.' !in e
    ensures |e| <= |name|
    ensures |e| < |name| ==> name[|name| - |e| - 1] == '.'
    ensures e == ToLower(name[|name| - |e|..])
  {
    var raw := AfterLast(name, '.');
    var e := ToLower(raw);
    assert forall i :: 0 <= i < |e| ==> e[i] != '.' by {
      forall i | 0 <= i < |e| ensures e[i] != '.' {
        assert raw[i] != '.';
      }
    }
    e
  }

  /** `name.split('.')[0]`: the name up to its first dot. */
  function BaseName(name: string): (b: string)
    ensures '.' !in b && StartsWith(name, b)
    ensures |b| < |name| ==> name[|b|] == '.'
  {
    BeforeFirst(name, '.')
  }

  /** `r` is a selection of the elements of `s`, kept in their order in
      `s`. */
  predicate Subsequence<T(==)>(r: seq<T>, s: seq<T>)
    decreases |s|
  {
    if r == [] then true
    else if s == [] then false
    else (r[0] == s[0] && Subsequence(r[1..], s[1..])) || Subsequence(r, s[1..])
  }

  /** A selection of a selection is a selection of the whole. */
  lemma {:induction false} SubsequenceTrans<T>(a: seq<T>, b: seq<T>, c: seq<T>)
    requires Subsequence(a, b) && Subsequence(b, c)
    ensures Subsequence(a, c)
    decreases |c|
  {
    if a != [] && c != [] {
      if Subsequence(b, c[1..]) {
        SubsequenceTrans(a, b, c[1..]);
      } else if a[0] == b[0] && Subsequence(a[1..], b[1..]) {
        SubsequenceTrans(a[1..], b[1..], c[1..]);
      } else {
        SubsequenceTrans(a, b[1..], c[1..]);
      }
    }
  }

  /** `Array.prototype.filter`: the elements that pass. */
  function Filter<T(==)>(s: seq<T>, p: T -> bool): (r: seq<T>)
    ensures |r| <= |s|
    ensures forall x :: x in r ==> x in s && p(x)
    ensures forall x :: x in s && p(x) ==> x in r
  {
    if s == [] then []
    else if p(s[0]) then [s[0]] + Filter(s[1..], p)
    else Filter(s[1..], p)
  }

  /** A filter keeps the passing elements in their order. */
  lemma {:induction false} FilterKeepsOrder<T>(s: seq<T>, p: T -> bool)
    ensures Subsequence(Filter(s, p), s)
  {
    if s != [] {
      FilterKeepsOrder(s[1..], p);
      var r := Filter(s, p);
      if p(s[0]) {
        assert r[0] == s[0] && r[1..] == Filter(s[1..], p);
      }
    }
  }

  /** A filter keeps every passing element as often as it occurs, and no
      other. */
  lemma {:induction false} FilterCounts<T>(s: seq<T>, p: T -> bool, x: T)
    ensures multiset(Filter(s, p))[x] == if p(x) then multiset(s)[x] else 0
  {
    if s != [] {
      FilterCounts(s[1..], p, x);
      assert s == [s[0]] + s[1..];
      if p(s[0]) {
        assert multiset(Filter(s, p)) == multiset([s[0]]) + multiset(Filter(s[1..], p));
      }
    }
  }

  /** Filtering a concatenation filters each part. */
  lemma {:induction false} FilterConcat<T>(s: seq<T>, t: seq<T>, p: T -> bool)
    ensures Filter(s + t, p) == Filter(s, p) + Filter(t, p)
  {
    if s != [] {
      assert (s + t)[0] == s[0] && (s + t)[1..] == s[1..] + t;
      FilterConcat(s[1..], t, p);
      if p(s[0]) {
        assert Filter(s + t, p) == [s[0]] + Filter(s[1..] + t, p);
        assert Filter(s + t, p) == [s[0]] + (Filter(s[1..], p) + Filter(t, p));
      } else {
        assert Filter(s + t, p) == Filter(s[1..] + t, p);
      }
    } else {
      assert s + t == t;
    }
  }

  /** Every element lands on exactly one side of a filter and its opposite
      test: what a drop accepts plus what it rejects is what was dropped. */
  lemma {:induction false} FilterPartition<T>(s: seq<T>, p: T -> bool, q: T -> bool)
    requires forall x :: q(x) == !p(x)
    ensures |Filter(s, p)| + |Filter(s, q)| == |s|
  {
    if s != [] {
      FilterPartition(s[1..], p, q);
    }
  }

  /** Filtering with a test every element passes keeps the list as it was. */
  lemma {:induction false} FilterKeepsAll<T>(s: seq<T>, p: T -> bool)
    requires forall x :: x in s ==> p(x)
    ensures Filter(s, p) == s
  {
    if s != [] {
      FilterKeepsAll(s[1..], p);
    }
  }

  /** `list.filter((_, i) => i !== k)`: the list without position k, the
      list itself when k is past its end. */
  function RemoveAt<T>(s: seq<T>, k: nat): (r: seq<T>)
    ensures k < |s| ==> |r| == |s| - 1
    ensures k < |s| ==> forall i :: 0 <= i < k ==> r[i] == s[i]
    ensures k < |s| ==> forall i :: k <= i < |r| ==> r[i] == s[i + 1]
    ensures k >= |s| ==> r == s
  {
    if k < |s| then s[..k] + s[k + 1..] else s
  }

  /** `list.filter(x => x !== v)`: every other element, as often as it
      occurs, in the list's order. */
  function Without(s: seq<string>, v: string): (r: seq<string>)
    ensures v !in r
    ensures forall x :: x in r <==> x in s && x != v
    ensures forall x :: x in s && x != v ==> multiset(r)[x] == multiset(s)[x]
    ensures Subsequence(r, s)
  {
    var p := (x: string) => x != v;
    FilterKeepsOrder(s, p);
    assert forall x :: x in s && x != v ==> multiset(Filter(s, p))[x] == multiset(s)[x] by {
      forall x | x in s && x != v {
        FilterCounts(s, p, x);
      }
    }
    Filter(s, p)
  }

  /** A list that holds v only at position k loses exactly that position. */
  lemma WithoutAt(s: seq<string>, v: string, k: nat)
    requires k < |s| && s[k] == v
    requires forall j :: 0 <= j < |s| && j != k ==> s[j] != v
    ensures Without(s, v) == s[..k] + s[k + 1..]
  {
    var p := (x: string) => x != v;
    assert s == s[..k] + ([s[k]] + s[k + 1..]);
    FilterConcat(s[..k], [s[k]] + s[k + 1..], p);
    FilterConcat([s[k]], s[k + 1..], p);
    FilterKeepsAll(s[..k], p);
    FilterKeepsAll(s[k + 1..], p);
    assert Filter([s[k]], p) == [];
  }

  /** The head of a list without v is its first element, or its second when
      the first is v and the two differ. */
  lemma WithoutHead(s: seq<string>, v: string)
    requires |s| >= 2 && s[0] != s[1]
    ensures |Without(s, v)| > 0
    ensures Without(s, v)[0] == if s[0] == v then s[1] else s[0]
  {
    var p := (x: string) => x != v;
    assert Filter(s, p) == if p(s[0]) then [s[0]] + Filter(s[1..], p) else Filter(s[1..], p);
    assert Filter(s[1..], p) == if p(s[1]) then [s[1]] + Filter(s[2..], p) else Filter(s[2..], p) by {
      assert s[1..][0] == s[1] && s[1..][1..] == s[2..];
    }
  }
}
