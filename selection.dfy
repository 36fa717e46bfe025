/** Boolean-mask selection, `s[mask]` in pandas: the elements whose mask entry
    is true, in their original order. Used for row filtering and for picking
    the series that a table actually has. */
module Selection {

  /** Positions where `mask` is true, in increasing order. */
  function KeptIndices(mask: seq<bool>): (k: seq<nat>)
    ensures forall i :: 0 <= i < |k| ==> k[i] < |mask| && mask[k[i]]
    ensures forall i, j :: 0 <= i < j < |k| ==> k[i] < k[j]
    ensures forall p :: 0 <= p < |mask| && mask[p] ==> p in k
  {
    if mask == [] then []
    else KeptIndices(mask[..|mask| - 1]) + (if mask[|mask| - 1] then [|mask| - 1] else [])
  }

  /** `s[mask]` */
  function Select<T>(s: seq<T>, mask: seq<bool>): (r: seq<T>)
    requires |mask| == |s|
    ensures |r| == |KeptIndices(mask)|
    ensures forall i :: 0 <= i < |r| ==> r[i] == s[KeptIndices(mask)[i]]
  {
    if s == [] then []
    else
      var n := |s| - 1;
      Select(s[..n], mask[..n]) + (if mask[n] then [s[n]] else [])
  }

  /** Selecting from `s + [x]` extends the selection from `s` by `x` when its
      mask entry is true. */
  lemma SelectSnoc<T>(s: seq<T>, mask: seq<bool>, x: T, b: bool)
    requires |mask| == |s|
    ensures Select(s + [x], mask + [b]) == Select(s, mask) + (if b then [x] else [])
  {
    assert (s + [x])[..|s|] == s;
    assert (mask + [b])[..|s|] == mask;
  }

  /** A selection is never longer than its mask. */
  lemma {:induction false} KeptIndicesBound(mask: seq<bool>)
    ensures |KeptIndices(mask)| <= |mask|
  {
    if mask != [] {
      KeptIndicesBound(mask[..|mask| - 1]);
    }
  }

  /** An element is selected exactly when it sits at a position whose mask
      entry is true. */
  lemma SelectMembers<T>(s: seq<T>, mask: seq<bool>, x: T)
    requires |mask| == |s|
    ensures x in Select(s, mask) <==> exists p :: 0 <= p < |s| && mask[p] && s[p] == x
  {
    var r := Select(s, mask);
    var k := KeptIndices(mask);
    if x in r {
      var i :| 0 <= i < |r| && r[i] == x;
      assert mask[k[i]] && s[k[i]] == x;
    }
    if exists p :: 0 <= p < |s| && mask[p] && s[p] == x {
      var p :| 0 <= p < |s| && mask[p] && s[p] == x;
      var i :| 0 <= i < |k| && k[i] == p;
      assert r[i] == x;
    }
  }

  /** Selecting with `m1` and then, among the survivors, with `m2` is selecting
      with `m2` alone, when `m2` keeps no element that `m1` drops. */
  lemma {:induction false} SelectTwice<T>(s: seq<T>, m1: seq<bool>, m2: seq<bool>)
    requires |m1| == |s| && |m2| == |s|
    requires forall p :: 0 <= p < |s| && m2[p] ==> m1[p]
    ensures Select(Select(s, m1), Select(m2, m1)) == Select(s, m2)
  {
    if s != [] {
      var n := |s| - 1;
      var a, b := Select(s[..n], m1[..n]), Select(m2[..n], m1[..n]);
      SelectTwice(s[..n], m1[..n], m2[..n]);
      assert Select(a, b) == Select(s[..n], m2[..n]);
      assert Select(s, m2) == Select(s[..n], m2[..n]) + (if m2[n] then [s[n]] else []);
      if m1[n] {
        assert Select(s, m1) == a + [s[n]];
        assert Select(m2, m1) == b + [m2[n]];
        SelectSnoc(a, b, s[n], m2[n]);
      } else {
        assert Select(s, m1) == a;
        assert Select(m2, m1) == b;
      }
    }
  }
}
