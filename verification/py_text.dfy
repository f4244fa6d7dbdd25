/** The Python string operations the backend applies to model replies:
    `sub in s`, `s.find`, `s.rfind`, `s.split`, `s.strip()`, slicing, and the
    non-greedy `re.sub(r'<thinking>.*?</thinking>', '', s, flags=re.DOTALL)`. */
module PyText {
  import opened Wrappers

  /** `pat` occurs in `s` starting at index `i`. */
  predicate OccursAt(s: string, pat: string, i: int) {
    0 <= i && i + |pat| <= |s| && s[i..i + |pat|] == pat
  }

  /** Python's `pat in s`. */
  predicate Contains(s: string, pat: string) {
    exists i | 0 <= i <= |s| :: OccursAt(s, pat, i)
  }

  /** The first occurrence of `pat` at or after `from` (Python's
      `s.find(pat, from)`, with `None` for -1). */
  function FindFrom(s: string, pat: string, from: nat): (r: Option<nat>)
    ensures r.Some? ==> from <= r.value && OccursAt(s, pat, r.value)
    ensures r.Some? ==> forall j :: from <= j < r.value ==> !OccursAt(s, pat, j)
    ensures r.None? ==> forall j :: from <= j ==> !OccursAt(s, pat, j)
    decreases |s| - from
  {
    if from + |pat| > |s| then None
    else if s[from..from + |pat|] == pat then Some(from)
    else FindFrom(s, pat, from + 1)
  }

  /** Python's `s.find(pat)`. */
  function Find(s: string, pat: string): (r: Option<nat>)
    ensures r.Some? <==> Contains(s, pat)
    ensures r.Some? ==> OccursAt(s, pat, r.value)
    ensures r.Some? ==> forall j :: 0 <= j < r.value ==> !OccursAt(s, pat, j)
  {
    FindFrom(s, pat, 0)
  }

  /** Python's `s.rfind(pat)`: the last occurrence. */
  function RFind(s: string, pat: string): (r: Option<nat>)
    ensures r.Some? <==> Contains(s, pat)
    ensures r.Some? ==> OccursAt(s, pat, r.value)
    ensures r.Some? ==> forall j :: r.value < j ==> !OccursAt(s, pat, j)
  {
    RFindBelow(s, pat, |s| + 1)
  }

  /** The last occurrence starting before `bound`. */
  function RFindBelow(s: string, pat: string, bound: nat): (r: Option<nat>)
    ensures r.Some? ==> r.value < bound && OccursAt(s, pat, r.value)
    ensures r.Some? ==> forall j :: r.value < j < bound ==> !OccursAt(s, pat, j)
    ensures r.None? ==> forall j :: j < bound ==> !OccursAt(s, pat, j)
  {
    if bound == 0 then None
    else if OccursAt(s, pat, bound - 1) then Some(bound - 1)
    else RFindBelow(s, pat, bound - 1)
  }

  /** Python's `s.split(sep)` for a non-empty separator: the pieces between
      successive non-overlapping occurrences, scanning left to right. */
  function Split(s: string, sep: string): (r: seq<string>)
    requires |sep| > 0
    ensures |r| >= 1
    decreases |s|
  {
    match Find(s, sep)
    case None => [s]
    case Some(i) => [s[..i]] + Split(s[i + |sep|..], sep)
  }

  /** Where the separator is found, the first piece is the text before it
      and the other pieces are the split of the text after it. */
  lemma SplitFound(s: string, sep: string, i: nat)
    requires |sep| > 0 && Find(s, sep) == Some(i)
    ensures Split(s, sep) == [s[..i]] + Split(s[i + |sep|..], sep)
  {
  }

  /** Without the separator the text is its own single piece. */
  lemma SplitAbsent(s: string, sep: string)
    requires |sep| > 0 && !Contains(s, sep)
    ensures Split(s, sep) == [s]
  {
  }

  /** No piece holds the separator, and there is more than one piece
      exactly when the separator occurs. */
  lemma {:induction false} SplitPieces(s: string, sep: string)
    requires |sep| > 0
    ensures forall k :: 0 <= k < |Split(s, sep)| ==> !Contains(Split(s, sep)[k], sep)
    ensures |Split(s, sep)| == 1 <==> !Contains(s, sep)
    decreases |s|
  {
    match Find(s, sep)
    case None =>
    case Some(i) =>
      var head := s[..i];
      var rest := s[i + |sep|..];
      SplitFound(s, sep, i);
      assert !Contains(head, sep) by {
        forall j | OccursAt(head, sep, j) ensures false {
          assert s[j..j + |sep|] == head[j..j + |sep|];
          assert OccursAt(s, sep, j);
        }
      }
      SplitPieces(rest, sep);
      var r := Split(s, sep);
      forall k | 0 <= k < |r| ensures !Contains(r[k], sep) {
        if k > 0 { assert r[k] == Split(rest, sep)[k - 1]; }
      }
  }

  /** Python's `sep.join(parts)`. */
  function Join(parts: seq<string>, sep: string): string {
    if |parts| == 0 then ""
    else if |parts| == 1 then parts[0]
    else parts[0] + sep + Join(parts[1..], sep)
  }

  /** Joining the pieces of a split with the same separator gives back the
      original text. */
  lemma {:induction false} JoinSplit(s: string, sep: string)
    requires |sep| > 0
    ensures Join(Split(s, sep), sep) == s
    decreases |s|
  {
    match Find(s, sep)
    case None =>
    case Some(i) =>
      var rest := s[i + |sep|..];
      SplitFound(s, sep, i);
      JoinSplit(rest, sep);
      assert s[i..i + |sep|] == sep;
      assert s == s[..i] + sep + rest;
  }

  /** Adding one more piece puts one separator in front of it. */
  lemma {:induction false} JoinAppend(parts: seq<string>, x: string, sep: string)
    ensures Join(parts + [x], sep) == if |parts| == 0 then x else Join(parts, sep) + sep + x
  {
    if |parts| > 1 {
      assert (parts + [x])[1..] == parts[1..] + [x];
      JoinAppend(parts[1..], x, sep);
    } else if |parts| == 1 {
      assert (parts + [x])[1..] == [x];
    }
  }

  /** Python's `s.split(sep)[k]`; `None` where Python raises IndexError. */
  function SplitPart(s: string, sep: string, k: nat): (r: Option<string>)
    requires |sep| > 0
    ensures r.Some? ==> !Contains(r.value, sep)
    ensures k == 0 ==> r.Some?
    ensures k == 1 ==> (r.Some? <==> Contains(s, sep))
  {
    var parts := Split(s, sep);
    SplitPieces(s, sep);
    if k < |parts| then Some(parts[k]) else None
  }

  /** The characters Python's `str.isspace()` accepts. */
  predicate IsSpace(c: char) {
    || c == ' ' || '\t' <= c <= '\r' || '\U{1c}' <= c <= '\U{1f}'
    || c == '\U{85}' || c == '\U{a0}' || c == '\U{1680}'
    || '\U{2000}' <= c <= '\U{200a}' || c == '\U{2028}' || c == '\U{2029}'
    || c == '\U{202f}' || c == '\U{205f}' || c == '\U{3000}'
  }

  predicate AllSpace(s: string) {
    forall i :: 0 <= i < |s| ==> IsSpace(s[i])
  }

  /** Python's `s.strip()`: the text between the leading and the trailing
      run of whitespace. */
  function Strip(s: string): (r: string)
    ensures |r| <= |s|
    ensures Trims(s, r)
    ensures r == [] || (!IsSpace(r[0]) && !IsSpace(r[|r| - 1]))
  {
    EmptyAllSpace(s);
    var lo := FirstSolid(s, 0);
    var hi := LastSolidEnd(s, |s|, lo);
    StripWitness(s, lo, hi);
    s[lo..hi]
  }

  /** `r` is `s` with some whitespace removed from each end. */
  ghost predicate Trims(s: string, r: string) {
    exists i :: 0 <= i <= i + |r| <= |s| && s[i..i + |r|] == r
                && AllSpace(s[..i]) && AllSpace(s[i + |r|..])
  }

  lemma EmptyAllSpace(s: string)
    ensures AllSpace(s[..0]) && AllSpace(s[|s|..])
  {
    assert s[..0] == [] && s[|s|..] == [];
  }

  lemma StripWitness(s: string, lo: nat, hi: nat)
    requires lo <= hi <= |s|
    requires AllSpace(s[..lo]) && AllSpace(s[hi..])
    requires lo < hi ==> !IsSpace(s[lo]) && !IsSpace(s[hi - 1])
    ensures Trims(s, s[lo..hi])
    ensures var r := s[lo..hi];
      r == [] || (!IsSpace(r[0]) && !IsSpace(r[|r| - 1]))
  {
    assert lo + (hi - lo) == hi;
    if lo < hi {
      assert s[lo..hi][0] == s[lo];
      assert s[lo..hi][hi - lo - 1] == s[hi - 1];
    }
  }

  /** Index of the first non-whitespace character at or after `i`, or |s|. */
  function FirstSolid(s: string, i: nat): (r: nat)
    requires i <= |s|
    requires AllSpace(s[..i])
    ensures i <= r <= |s|
    ensures AllSpace(s[..r])
    ensures r < |s| ==> !IsSpace(s[r])
    decreases |s| - i
  {
    if i == |s| || !IsSpace(s[i]) then i
    else
      assert s[..i + 1] == s[..i] + [s[i]];
      FirstSolid(s, i + 1)
  }

  /** One past the last non-whitespace character in s[lo..j], or `lo`. */
  function LastSolidEnd(s: string, j: nat, lo: nat): (r: nat)
    requires lo <= j <= |s|
    requires AllSpace(s[j..])
    requires lo < |s| ==> !IsSpace(s[lo])
    ensures lo <= r <= j
    ensures AllSpace(s[r..])
    ensures r > lo ==> !IsSpace(s[r - 1])
    ensures r == lo ==> (lo == |s| || j == lo)
    decreases j
  {
    if j == lo || !IsSpace(s[j - 1]) then j
    else
      assert s[j - 1..] == [s[j - 1]] + s[j..];
      LastSolidEnd(s, j - 1, lo)
  }

  const Open: string := "<thinking>"
  const Close: string := "</thinking>"

  /** `re.sub(r'<thinking>.*?</thinking>', '', s, flags=re.DOTALL)`: scanning
      left to right, each opening tag is matched with the FIRST closing tag
      after it and the span is deleted; an opening tag with no closing tag
      after it ends the scan. */
  function RemoveThinking(s: string): (r: string)
    ensures |r| <= |s|
    ensures !Contains(s, Open) ==> r == s
    ensures !Contains(s, Close) ==> r == s
    decreases |s|
  {
    match Find(s, Open)
    case None => s
    case Some(i) =>
      match FindFrom(s, Close, i + |Open|)
      case None =>
        s
      case Some(j) =>
        assert Contains(s, Close) by { assert OccursAt(s, Close, j); }
        s[..i] + RemoveThinking(s[j + |Close|..])
  }

  /** A reply that opens with one thinking block, in whose body no closing
      tag starts, loses exactly that block: the scan then carries on over
      the rest. */
  lemma {:induction false} RemoveLeadingBlock(t: string, rest: string)
    requires forall k :: 0 <= k < |t| ==> !OccursAt(t + Close, Close, k)
    ensures RemoveThinking(Open + t + Close + rest) == RemoveThinking(rest)
  {
    var s := Open + t + Close + rest;
    var j := |Open| + |t|;
    assert OccursAt(s, Open, 0) by { assert s[..|Open|] == Open; }
    assert Find(s, Open) == Some(0);
    assert OccursAt(s, Close, j) by { assert s[j..j + |Close|] == Close; }
    var m := t + Close;
    assert s == Open + m + rest;
    forall k | |Open| <= k < j ensures !OccursAt(s, Close, k) {
      var i := k - |Open|;
      assert !OccursAt(m, Close, i);
      assert s[k..k + |Close|] == m[i..i + |Close|];
    }
    assert FindFrom(s, Close, |Open|) == Some(j);
    assert s[j + |Close|..] == rest;
  }
}
