/** Column-label normalisation of `load_data`: string labels lose their
    surrounding whitespace (Python's `str.strip()` with no argument); other
    labels pass through. */
module Labels {
  import opened Frames

  /** Python's `str.isspace` for one character: the characters Python's
      `str.strip()` removes by default. */
  predicate IsSpace(c: char) {
    || ('\t' <= c <= '\r')
    || ('\U{1C}' <= c <= '\U{1F}')
    || c == ' ' || c == '\U{85}' || c == '\U{A0}' || c == '\U{1680}'
    || ('\U{2000}' <= c <= '\U{200A}')
    || c == '\U{2028}' || c == '\U{2029}' || c == '\U{202F}' || c == '\U{205F}'
    || c == '\U{3000}'
  }

  ghost predicate AllSpace(s: string) {
    forall k :: 0 <= k < |s| ==> IsSpace(s[k])
  }

  /** `str.lstrip()`: the longest suffix of `s` that does not start with whitespace. */
  function TrimStart(s: string): (r: string)
    ensures |r| <= |s| && r == s[|s| - |r|..]
    ensures AllSpace(s[..|s| - |r|])
    ensures r == [] || !IsSpace(r[0])
  {
    if |s| > 0 && IsSpace(s[0]) then TrimStart(s[1..]) else s
  }

  /** `str.rstrip()`: the longest prefix of `s` that does not end with whitespace. */
  function TrimEnd(s: string): (r: string)
    ensures |r| <= |s| && r == s[..|r|]
    ensures AllSpace(s[|r|..])
    ensures r == [] || !IsSpace(r[|r| - 1])
  {
    if |s| > 0 && IsSpace(s[|s| - 1]) then TrimEnd(s[..|s| - 1]) else s
  }

  /** `s` with whitespace `lead` characters long before `r` and whitespace
      after it, and `r` neither starting nor ending with whitespace. */
  ghost predicate StrippedAt(s: string, r: string, lead: nat) {
    && lead + |r| <= |s|
    && s[lead..lead + |r|] == r
    && AllSpace(s[..lead])
    && AllSpace(s[lead + |r|..])
    && (r == [] || (!IsSpace(r[0]) && !IsSpace(r[|r| - 1])))
  }

  /** `str.strip()`. */
  function Strip(s: string): (r: string)
    ensures exists lead: nat :: StrippedAt(s, r, lead)
  {
    var u := TrimStart(s);
    var r := TrimEnd(u);
    var lead := |s| - |u|;
    assert s[lead..lead + |r|] == u[..|r|];
    assert s[lead + |r|..] == u[|r|..];
    assert StrippedAt(s, r, lead);
    r
  }

  /** Whitespace in front of a string that does not start with whitespace is
      exactly what `TrimStart` removes. */
  lemma {:induction false} TrimStartOf(p: string, q: string)
    requires AllSpace(p) && (q == [] || !IsSpace(q[0]))
    ensures TrimStart(p + q) == q
  {
    if p != [] {
      assert (p + q)[1..] == p[1..] + q;
      TrimStartOf(p[1..], q);
    } else {
      assert p + q == q;
    }
  }

  /** Whitespace after a string that does not end with whitespace is exactly
      what `TrimEnd` removes. */
  lemma {:induction false} TrimEndOf(q: string, p: string)
    requires AllSpace(p) && (q == [] || !IsSpace(q[|q| - 1]))
    ensures TrimEnd(q + p) == q
  {
    if p != [] {
      assert (q + p)[..|q + p| - 1] == q + p[..|p| - 1];
      TrimEndOf(q, p[..|p| - 1]);
    } else {
      assert q + p == q;
    }
  }

  /** The characterisation in Strip's contract fixes the result: any `r` that
      sits in `s` between whitespace and has no whitespace at its ends is `Strip(s)`. */
  lemma StripUnique(s: string, r: string, lead: nat)
    requires StrippedAt(s, r, lead)
    ensures r == Strip(s)
  {
    var tail := s[lead + |r|..];
    if r == [] {
      assert AllSpace(s) by {
        assert s == s[..lead] + tail;
      }
      TrimStartOf(s, []);
      assert s + [] == s;
    } else {
      assert s == s[..lead] + s[lead..];
      TrimStartOf(s[..lead], s[lead..]);
      assert s[lead..] == r + tail;
      TrimEndOf(r, tail);
    }
  }

  /** A string without whitespace at either end is its own strip. */
  lemma {:induction false} StripUnchanged(s: string)
    requires s == [] || (!IsSpace(s[0]) && !IsSpace(s[|s| - 1]))
    ensures Strip(s) == s
  {
    assert TrimStart(s) == s;
    assert TrimEnd(s) == s;
  }

  /** Stripping twice gives the same result as stripping once. */
  lemma StripIdempotent(s: string)
    ensures Strip(Strip(s)) == Strip(s)
  {
    var lead: nat :| StrippedAt(s, Strip(s), lead);
    StripUnchanged(Strip(s));
  }

  /** The label normalisation of `load_data` line 63. */
  function StripLabel(l: Label): Label {
    match l
    case StrLabel(s) => StrLabel(Strip(s))
    case OtherLabel(k) => l
  }

  function StripLabels(ls: seq<Label>): (r: seq<Label>)
    ensures |r| == |ls|
    ensures forall i :: 0 <= i < |ls| && ls[i].StrLabel? ==> r[i] == StrLabel(Strip(ls[i].s))
    ensures forall i :: 0 <= i < |ls| && ls[i].OtherLabel? ==> r[i] == ls[i]
  {
    seq(|ls|, i requires 0 <= i < |ls| => StripLabel(ls[i]))
  }

  /** Normalising labels twice is the same as normalising them once. */
  lemma StripLabelsIdempotent(ls: seq<Label>)
    ensures StripLabels(StripLabels(ls)) == StripLabels(ls)
  {
    var once := StripLabels(ls);
    forall i | 0 <= i < |ls|
      ensures StripLabels(once)[i] == once[i]
    {
      if ls[i].StrLabel? {
        StripIdempotent(ls[i].s);
      }
    }
  }
}
