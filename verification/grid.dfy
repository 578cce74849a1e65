/**
  The voxel grid: a JavaScript `Map<string, BlockType>` from coordinate keys to
  block kinds, which iterates in insertion order. It is modelled as an
  association list whose keys are distinct; `Set` and `Delete` are the two
  `Map` mutations the block builder uses.
 */
module VoxelGrid {
  import opened Wrappers

  /** A block kind as the grid stores it. The palette offers five names, but an
      import stores whatever text its records carry. */
  type Kind = string

  datatype Entry = Entry(key: string, kind: Kind)

  predicate UniqueKeys(s: seq<Entry>) {
    forall i, j :: 0 <= i < j < |s| ==> s[i].key != s[j].key
  }

  /** The grid in iteration order; a `Map` never holds a key twice. */
  type Grid = s: seq<Entry> | UniqueKeys(s) witness []

  /** The keys of s in iteration order. */
  function KeysOf(s: seq<Entry>): seq<string> {
    seq(|s|, i requires 0 <= i < |s| => s[i].key)
  }

  /** `Map.prototype.has` */
  predicate Has(s: seq<Entry>, k: string) {
    exists i :: 0 <= i < |s| && s[i].key == k
  }

  /** The position of key k in iteration order. */
  function IndexOf(s: seq<Entry>, k: string): (i: nat)
    requires Has(s, k)
    ensures i < |s| && s[i].key == k
    ensures forall j :: 0 <= j < i ==> s[j].key != k
  {
    if s[0].key == k then 0
    else
      var j :| 0 <= j < |s| && s[j].key == k;
      assert s[1..][j - 1].key == k;
      1 + IndexOf(s[1..], k)
  }

  /** `Map.prototype.get`: the kind stored under k, if any. */
  function Lookup(g: Grid, k: string): (r: Option<Kind>)
    ensures r.None? <==> !Has(g, k)
    ensures forall i :: 0 <= i < |g| && g[i].key == k ==> r == Some(g[i].kind)
  {
    if Has(g, k) then Some(g[IndexOf(g, k)].kind) else None
  }

  /** `Map.prototype.set`: a key already present keeps its place and gets the
      new kind; a new key is appended after every existing entry. */
  function Set(g: Grid, k: string, v: Kind): (r: Grid)
    ensures Lookup(r, k) == Some(v)
    ensures forall k' :: k' != k ==> Lookup(r, k') == Lookup(g, k')
    ensures Has(g, k) ==> KeysOf(r) == KeysOf(g)
    ensures !Has(g, k) ==> r == g + [Entry(k, v)]
  {
    if Has(g, k) then
      var r := g[IndexOf(g, k) := Entry(k, v)];
      assert forall i :: 0 <= i < |r| ==> r[i].key == g[i].key;
      r
    else
      var r := g + [Entry(k, v)];
      assert forall i :: 0 <= i < |g| ==> r[i] == g[i];
      assert r[|g|] == Entry(k, v);
      r
  }

  /** `Map.prototype.delete`: drops the entry under k, if there is one, and
      leaves every other key with its kind. */
  function Delete(g: Grid, k: string): (r: Grid)
    ensures !Has(r, k)
    ensures forall k' :: k' != k ==> Lookup(r, k') == Lookup(g, k')
    ensures |r| == if Has(g, k) then |g| - 1 else |g|
  {
    if Has(g, k) then
      var i := IndexOf(g, k);
      var r := g[..i] + g[i + 1..];
      assert forall j :: 0 <= j < i ==> r[j] == g[j];
      assert forall j :: i <= j < |r| ==> r[j] == g[j + 1];
      assert UniqueKeys(r) by {
        forall a, b | 0 <= a < b < |r|
          ensures r[a].key != r[b].key
        {
          var a' := if a < i then a else a + 1;
          var b' := if b < i then b else b + 1;
          assert r[a] == g[a'] && r[b] == g[b'];
        }
      }
      forall k' | k' != k
        ensures Lookup(r, k') == Lookup(g, k')
      {
        if Has(g, k') {
          var j := IndexOf(g, k');
          assert j != i;
          if j < i {
            assert r[j] == g[j];
          } else {
            assert r[j - 1] == g[j];
          }
        }
        if Has(r, k') {
          var j := IndexOf(r, k');
          if j < i {
            assert r[j] == g[j];
          } else {
            assert r[j] == g[j + 1];
          }
        }
      }
      r
    else
      g
  }

  /** The entries of s whose key is not k, in their order: the reference for
      what deleting a key leaves behind. */
  function Without(s: seq<Entry>, k: string): seq<Entry> {
    if |s| == 0 then []
    else (if s[0].key == k then [] else [s[0]]) + Without(s[1..], k)
  }

  /** Filtering out a key keeps exactly the entries under other keys. */
  lemma {:induction false} WithoutMembers(s: seq<Entry>, k: string)
    ensures forall e :: e in Without(s, k) <==> e in s && e.key != k
    decreases |s|
  {
    if |s| > 0 {
      WithoutMembers(s[1..], k);
      assert s == [s[0]] + s[1..];
    }
  }

  lemma {:induction false} WithoutAbsent(s: seq<Entry>, k: string)
    requires !Has(s, k)
    ensures Without(s, k) == s
    decreases |s|
  {
    if |s| > 0 {
      assert s[0].key != k;
      assert !Has(s[1..], k) by {
        forall i | 0 <= i < |s[1..]|
          ensures s[1..][i].key != k
        {
          assert s[1..][i] == s[i + 1];
        }
      }
      WithoutAbsent(s[1..], k);
      assert [s[0]] + s[1..] == s;
    }
  }

  lemma {:induction false} WithoutSplice(s: seq<Entry>, k: string, i: nat)
    requires UniqueKeys(s)
    requires i < |s| && s[i].key == k
    ensures Without(s, k) == s[..i] + s[i + 1..]
    decreases i
  {
    if i == 0 {
      assert !Has(s[1..], k);
      WithoutAbsent(s[1..], k);
    } else {
      var t := s[1..];
      assert UniqueKeys(t) by {
        forall a, b | 0 <= a < b < |t|
          ensures t[a].key != t[b].key
        {
          assert t[a] == s[a + 1] && t[b] == s[b + 1];
        }
      }
      WithoutSplice(t, k, i - 1);
      assert s[0].key != k;
      assert [s[0]] + (t[..i - 1] + t[i..]) == s[..i] + s[i + 1..];
    }
  }

  /** Deleting a key keeps every other entry, in its order: the grid after the
      deletion is the grid with the entries under k filtered out. */
  lemma DeleteKeepsOrder(g: Grid, k: string)
    ensures Delete(g, k) == Without(g, k)
  {
    if Has(g, k) {
      WithoutSplice(g, k, IndexOf(g, k));
    } else {
      WithoutAbsent(g, k);
    }
  }
}
