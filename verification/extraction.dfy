/** The five ways both diagnosis backends try to pull a diagnosis object out
    of a model's reply text, in the order they try them:
      1. the whole text;
      2. the text of a "```json" fence;
      3. the text of any "```" fence;
      4. each candidate the backend's regular expression finds;
      5. the span from the first '{' to the last '}'.
    A candidate is accepted only when it parses to an object holding both a
    "disease" and a "crop" key.

    JSON parsing (`json.loads`) and the regular-expression search
    (`re.findall`) are not modelled: they are parameters `parse` and
    `findAll`. */
module Extraction {
  import opened Wrappers
  import opened JsonValue
  import opened PyText

  const JsonFenceMark: string := "```json"
  const FenceMark: string := "```"

  /** What one candidate text comes to. `Reject` is a candidate that fails
      to parse (JSONDecodeError is caught) or lacks a key; `Raise` is one
      whose key test or later dictionary use throws an exception that the
      extraction code does not catch. */
  datatype Verdict = Accept(fields: Fields) | Reject | Raise

  /** The outcome of the whole cascade. */
  datatype Pick = Picked(fields: Fields) | Raised | NoneAccepted

  /** `'disease' in result and 'crop' in result` on a parsed value, with
      Python's meaning of `in`: a key test on a dict, a substring test on a
      str, an element test on a list, and a TypeError on a number, a bool
      or None. A str or list that passes the test then fails on the dict
      method called next (`.get` or `.setdefault`). */
  function Judge(parsed: Option<Json>): (v: Verdict)
    ensures v.Accept? <==> (parsed.Some? && parsed.value.JObj?
                            && Has(parsed.value.fields, "disease")
                            && Has(parsed.value.fields, "crop"))
    ensures v.Accept? ==> parsed == Some(JObj(v.fields))
    ensures parsed.None? ==> v.Reject?
  {
    match parsed
    case None => Reject
    case Some(JObj(f)) =>
      if Has(f, "disease") && Has(f, "crop") then Accept(f) else Reject
    case Some(JStr(t)) =>
      if Contains(t, "disease") && Contains(t, "crop") then Raise else Reject
    case Some(JArr(xs)) =>
      if JStr("disease") in xs && JStr("crop") in xs then Raise else Reject
    case Some(_) => Raise
  }

  /** A candidate that may be missing: a missing one (Python's IndexError,
      caught alongside JSONDecodeError) is rejected. */
  function JudgeText(c: Option<string>, parse: string -> Option<Json>): (v: Verdict)
    ensures v.Accept? ==> Has(v.fields, "disease") && Has(v.fields, "crop")
  {
    match c
    case None => Reject
    case Some(t) => Judge(parse(t))
  }

  /** The regular-expression loop: the first candidate that is not rejected
      decides. */
  function JudgeEach(cs: seq<string>, parse: string -> Option<Json>): (v: Verdict)
    ensures v.Reject? <==> forall k :: 0 <= k < |cs| ==> Judge(parse(cs[k])).Reject?
    ensures v.Accept? ==> Has(v.fields, "disease") && Has(v.fields, "crop")
  {
    if |cs| == 0 then Reject
    else
      var v := Judge(parse(cs[0]));
      if v.Reject? then JudgeEach(cs[1..], parse) else v
  }

  /** `text.split("```json")[1].split("```")[0].strip()`. */
  function JsonFence(text: string): (r: Option<string>)
    ensures Contains(text, JsonFenceMark) ==> r.Some?
  {
    SplitTwice(text, JsonFenceMark);
    match SplitPart(text, JsonFenceMark, 1)
    case None => None
    case Some(seg) => Some(Strip(Split(seg, FenceMark)[0]))
  }

  /** `text.split("```")[1].split("```")[0].strip()`. */
  function AnyFence(text: string): (r: Option<string>)
    ensures Contains(text, FenceMark) ==> r.Some?
  {
    SplitTwice(text, FenceMark);
    match SplitPart(text, FenceMark, 1)
    case None => None
    case Some(seg) => Some(Strip(Split(seg, FenceMark)[0]))
  }

  /** `text[text.find('{'):text.rfind('}') + 1]`, attempted only when both
      characters occur and the last '}' comes after the first '{'. */
  function BraceSpan(text: string): (r: Option<string>)
    ensures r.Some? <==> exists a, b :: 0 <= a < b < |text| && text[a] == '{' && text[b] == '}'
    ensures r.Some? ==> exists a, b :: BraceBounds(text, a, b) && r.value == text[a..b + 1]
  {
    BraceOrder(text);
    var first := Find(text, "{");
    var last := RFind(text, "}");
    if first.Some? && last.Some? && last.value > first.value then
      BraceBoundsAt(text, first.value, last.value);
      Some(text[first.value..last.value + 1])
    else None
  }

  /** `a` is the first '{' of the text and `b`, after it, its last '}'. */
  predicate BraceBounds(text: string, a: int, b: int) {
    && 0 <= a < b < |text| && text[a] == '{' && text[b] == '}'
    && (forall i :: 0 <= i < a ==> text[i] != '{')
    && (forall j :: b < j < |text| ==> text[j] != '}')
  }

  /** `find('{')` and `rfind('}')` are the first '{' and the last '}'. */
  lemma BraceBoundsAt(text: string, a: nat, b: nat)
    requires Find(text, "{") == Some(a) && RFind(text, "}") == Some(b) && a < b
    ensures BraceBounds(text, a, b)
  {
    CharAt(text, "{", a);
    CharAt(text, "}", b);
    forall i | 0 <= i < a ensures text[i] != '{' {
      CharAt(text, "{", i);
    }
    forall j | b < j < |text| ensures text[j] != '}' {
      CharAt(text, "}", j);
    }
  }

  lemma CharAt(text: string, c: string, i: nat)
    requires |c| == 1
    ensures OccursAt(text, c, i) <==> i < |text| && text[i] == c[0]
  {
    if i < |text| && text[i] == c[0] {
      assert text[i..i + 1] == c;
    }
  }

  /** Some '{' precedes some '}' exactly when the first '{' precedes the
      last '}'. */
  lemma BraceOrder(text: string)
    ensures (exists a, b :: 0 <= a < b < |text| && text[a] == '{' && text[b] == '}')
        <==> (Find(text, "{").Some? && RFind(text, "}").Some?
              && RFind(text, "}").value > Find(text, "{").value)
  {
    if exists a, b :: 0 <= a < b < |text| && text[a] == '{' && text[b] == '}' {
      var a, b :| 0 <= a < b < |text| && text[a] == '{' && text[b] == '}';
      CharAt(text, "{", a);
      CharAt(text, "}", b);
      var f := Find(text, "{");
      var l := RFind(text, "}");
      assert f.Some? && l.Some?;
      assert f.value <= a && b <= l.value;
    }
    if Find(text, "{").Some? && RFind(text, "}").Some? && RFind(text, "}").value > Find(text, "{").value {
      var a := Find(text, "{").value;
      var b := RFind(text, "}").value;
      CharAt(text, "{", a);
      CharAt(text, "}", b);
    }
  }

  /** What a deciding verdict comes to: its object, or the exception. */
  function Settle(v: Verdict): Pick
    requires !v.Reject?
  {
    if v.Accept? then Picked(v.fields) else Raised
  }

  /** The cascade as the backends write it: each method in turn, the first
      that does not reject deciding. */
  function Cascade(text: string, parse: string -> Option<Json>,
                   findAll: string -> seq<string>): (p: Pick)
    ensures p.Picked? ==> Has(p.fields, "disease") && Has(p.fields, "crop")
  {
    Ladder(Judge(parse(text)),
           JudgeText(if Contains(text, JsonFenceMark) then JsonFence(text) else None, parse),
           JudgeText(if Contains(text, FenceMark) then AnyFence(text) else None, parse),
           JudgeEach(findAll(text), parse),
           JudgeText(BraceSpan(text), parse))
  }

  /** The five rungs shared by both backends, tried in source order. */
  function Ladder(direct: Verdict, jsonFenced: Verdict, anyFenced: Verdict,
                  matched: Verdict, braced: Verdict): Pick
  {
    if !direct.Reject? then Settle(direct)
    else if !jsonFenced.Reject? then Settle(jsonFenced)
    else if !anyFenced.Reject? then Settle(anyFenced)
    else if !matched.Reject? then Settle(matched)
    else if !braced.Reject? then Settle(braced)
    else NoneAccepted
  }

  // ---------------------------------------------------------------------
  // A reference reading of the cascade: one list of candidate texts, in
  // the order the methods produce them, and the first decisive verdict.

  function OptSeq(o: Option<string>): seq<string> {
    if o.Some? then [o.value] else []
  }

  /** Every candidate text the cascade may try, in order. */
  function Candidates(text: string, findAll: string -> seq<string>): seq<string> {
    [text]
    + OptSeq(if Contains(text, JsonFenceMark) then JsonFence(text) else None)
    + OptSeq(if Contains(text, FenceMark) then AnyFence(text) else None)
    + findAll(text)
    + OptSeq(BraceSpan(text))
  }

  /** The verdict on each candidate text, in order. */
  function Verdicts(cs: seq<string>, parse: string -> Option<Json>): (vs: seq<Verdict>)
    ensures |vs| == |cs|
    ensures forall k :: 0 <= k < |cs| ==> vs[k] == Judge(parse(cs[k]))
  {
    seq(|cs|, k requires 0 <= k < |cs| => Judge(parse(cs[k])))
  }

  /** The first verdict that is not a rejection decides; all rejections
      leave nothing accepted. */
  function FirstDecisive(vs: seq<Verdict>): (p: Pick)
    ensures p.Picked? ==> exists k :: 0 <= k < |vs| && vs[k] == Accept(p.fields)
                                      && forall j :: 0 <= j < k ==> vs[j].Reject?
    ensures p.Raised? ==> exists k :: 0 <= k < |vs| && vs[k].Raise?
                                      && forall j :: 0 <= j < k ==> vs[j].Reject?
    ensures p.NoneAccepted? <==> forall k :: 0 <= k < |vs| ==> vs[k].Reject?
  {
    if |vs| == 0 then NoneAccepted
    else if vs[0].Reject? then
      var p := FirstDecisive(vs[1..]);
      assert forall k :: 1 <= k < |vs| ==> vs[k] == vs[1..][k - 1];
      p
    else Settle(vs[0])
  }

  lemma {:induction false} FirstDecisiveAppend(a: seq<Verdict>, b: seq<Verdict>)
    ensures FirstDecisive(a + b) ==
      if FirstDecisive(a).NoneAccepted? then FirstDecisive(b) else FirstDecisive(a)
  {
    if |a| > 0 {
      assert (a + b)[1..] == a[1..] + b;
      FirstDecisiveAppend(a[1..], b);
    } else {
      assert a + b == b;
    }
  }

  lemma {:induction false} JudgeEachIsFirstDecisive(cs: seq<string>, parse: string -> Option<Json>)
    ensures var v := JudgeEach(cs, parse);
      FirstDecisive(Verdicts(cs, parse)) == if v.Reject? then NoneAccepted else Settle(v)
  {
    if |cs| > 0 {
      assert Verdicts(cs, parse)[1..] == Verdicts(cs[1..], parse);
      JudgeEachIsFirstDecisive(cs[1..], parse);
    }
  }

  lemma SingleVerdict(c: Option<string>, parse: string -> Option<Json>)
    ensures var v := JudgeText(c, parse);
      FirstDecisive(Verdicts(OptSeq(c), parse)) == if v.Reject? then NoneAccepted else Settle(v)
  {
    if c.Some? {
      assert Verdicts(OptSeq(c), parse) == [Judge(parse(c.value))];
      assert Verdicts(OptSeq(c), parse)[1..] == [];
    }
  }

  lemma VerdictsAppend(a: seq<string>, b: seq<string>, parse: string -> Option<Json>)
    ensures Verdicts(a + b, parse) == Verdicts(a, parse) + Verdicts(b, parse)
  {
  }

  /** The ladder over five candidate groups is the first decisive verdict
      over their concatenation. */
  lemma LadderIsFirstDecisive(t: string, c2: Option<string>, c3: Option<string>,
                              c4: seq<string>, c5: Option<string>,
                              parse: string -> Option<Json>)
    ensures Ladder(Judge(parse(t)), JudgeText(c2, parse), JudgeText(c3, parse),
                   JudgeEach(c4, parse), JudgeText(c5, parse))
         == FirstDecisive(Verdicts([t] + OptSeq(c2) + OptSeq(c3) + c4 + OptSeq(c5), parse))
  {
    var s1, s2, s3, s4, s5 := [t], OptSeq(c2), OptSeq(c3), c4, OptSeq(c5);
    assert s1 + s2 + s3 + s4 + s5 == s1 + (s2 + (s3 + (s4 + s5)));
    VerdictsAppend(s1, s2 + (s3 + (s4 + s5)), parse);
    VerdictsAppend(s2, s3 + (s4 + s5), parse);
    VerdictsAppend(s3, s4 + s5, parse);
    VerdictsAppend(s4, s5, parse);
    FirstDecisiveAppend(Verdicts(s1, parse), Verdicts(s2 + (s3 + (s4 + s5)), parse));
    FirstDecisiveAppend(Verdicts(s2, parse), Verdicts(s3 + (s4 + s5), parse));
    FirstDecisiveAppend(Verdicts(s3, parse), Verdicts(s4 + s5, parse));
    FirstDecisiveAppend(Verdicts(s4, parse), Verdicts(s5, parse));
    SingleVerdict(Some(t), parse);
    SingleVerdict(c2, parse);
    SingleVerdict(c3, parse);
    JudgeEachIsFirstDecisive(c4, parse);
    SingleVerdict(c5, parse);
  }

  /** The methods are tried in the fixed order direct, json fence, any
      fence, regex candidates, brace span, and the first one whose candidate
      is accepted (or throws) wins. */
  lemma CascadeOrder(text: string, parse: string -> Option<Json>, findAll: string -> seq<string>)
    ensures Cascade(text, parse, findAll) == FirstDecisive(Verdicts(Candidates(text, findAll), parse))
  {
    LadderIsFirstDecisive(text,
      if Contains(text, JsonFenceMark) then JsonFence(text) else None,
      if Contains(text, FenceMark) then AnyFence(text) else None,
      findAll(text), BraceSpan(text), parse);
  }

  // ---------------------------------------------------------------------
  // What the fence methods cut out.

  /** The first piece of a split is the text before the first separator;
      the second piece starts right after it. */
  lemma SplitTwice(s: string, sep: string)
    requires |sep| > 0
    ensures exists q :: s == Split(s, sep)[0] + q && (q == [] || OccursAt(q, sep, 0))
    ensures Contains(s, sep) ==> |Split(s, sep)| >= 2
    ensures Contains(s, sep) ==>
      && Split(s, sep)[0] == s[..Find(s, sep).value]
      && Split(s, sep)[1] == Split(s[Find(s, sep).value + |sep|..], sep)[0]
  {
    SplitHead(s, sep);
    if Contains(s, sep) {
      SplitAtFirst(s, sep);
    }
  }

  lemma SplitHead(s: string, sep: string)
    requires |sep| > 0
    ensures exists q :: s == Split(s, sep)[0] + q && (q == [] || OccursAt(q, sep, 0))
  {
    var f := Find(s, sep);
    if f.None? {
      assert s == Split(s, sep)[0] + [];
    } else {
      var i := f.value;
      SplitFound(s, sep, i);
      var q := s[i..];
      assert s == s[..i] + q;
      assert q[..|sep|] == s[i..i + |sep|];
      assert OccursAt(q, sep, 0);
    }
  }

  lemma SplitAtFirst(s: string, sep: string)
    requires |sep| > 0 && Contains(s, sep)
    ensures |Split(s, sep)| >= 2
    ensures Split(s, sep)[0] == s[..Find(s, sep).value]
    ensures Split(s, sep)[1] == Split(s[Find(s, sep).value + |sep|..], sep)[0]
  {
    var i := Find(s, sep).value;
    SplitFound(s, sep, i);
    var tail := Split(s[i + |sep|..], sep);
    assert |tail| >= 1;
  }

  /** `text` is `p`, then the first occurrence of `mark`, then `u`. */
  predicate MarkAt(text: string, mark: string, p: string, u: string) {
    text == p + mark + u && Find(text, mark) == Some(|p|)
  }

  /** `s` is `head` then `tail`, where `tail` is empty when `mark` does not
      occur in `s` and otherwise begins at its first occurrence: `head` is
      the text `s.split(mark)[0]` keeps. */
  predicate CutAt(s: string, mark: string, head: string, tail: string) {
    && s == head + tail
    && Find(s, mark) == (if tail == [] then None else Some(|head|))
  }

  /** A cut is determined by the text and the mark. */
  lemma CutUnique(s: string, mark: string, h1: string, t1: string, h2: string, t2: string)
    requires |mark| > 0 && CutAt(s, mark, h1, t1) && CutAt(s, mark, h2, t2)
    ensures h1 == h2 && t1 == t2
  {
    if t1 != [] {
      assert |h1| == |h2|;
      assert h1 == s[..|h1|] && h2 == s[..|h2|];
      assert t1 == s[|h1|..] && t2 == s[|h2|..];
    } else {
      assert t2 == [];
      assert h1 == s && h2 == s;
    }
  }

  /** What a cut keeps is the first piece of the split. */
  lemma CutHead(s: string, sep: string, head: string, tail: string)
    requires |sep| > 0 && CutAt(s, sep, head, tail)
    ensures Split(s, sep)[0] == head
  {
    if tail == [] {
      SplitAbsent(s, sep);
    } else {
      SplitFound(s, sep, |head|);
      assert s[..|head|] == head;
    }
  }

  /** Every text can be cut at any non-empty mark. */
  lemma CutExists(s: string, sep: string) returns (head: string, tail: string)
    requires |sep| > 0
    ensures CutAt(s, sep, head, tail)
  {
    match Find(s, sep)
    case None =>
      head, tail := s, [];
    case Some(i) =>
      head, tail := s[..i], s[i..];
      assert s == head + tail;
  }

  /** A text holding `mark` splits around its first occurrence. */
  lemma MarkExists(text: string, mark: string) returns (p: string, u: string)
    requires |mark| > 0 && Contains(text, mark)
    ensures MarkAt(text, mark, p, u)
  {
    var i := Find(text, mark).value;
    p := text[..i];
    u := text[i + |mark|..];
    assert text[i..i + |mark|] == mark;
    assert text == text[..i] + text[i..i + |mark|] + text[i + |mark|..];
  }

  /** `text.split(mark)[1]` is the first piece of what follows the first
      `mark`. */
  lemma SecondPiece(text: string, mark: string, p: string, u: string)
    requires |mark| > 0 && MarkAt(text, mark, p, u)
    ensures SplitPart(text, mark, 1) == Some(Split(u, mark)[0])
  {
    assert OccursAt(text, mark, |p|);
    SplitTwice(text, mark);
    assert text[|p| + |mark|..] == u;
  }

  /** The json-fence text is cut out in two steps: what follows the first
      "```json" is cut at the next "```json", and that is cut at its first
      "```"; the stripped remainder is the candidate. Any decomposition of
      the text this way determines the result. */
  lemma JsonFenceSegment(text: string, p: string, u: string, v: string, q1: string,
                         seg: string, q2: string)
    requires MarkAt(text, JsonFenceMark, p, u)
    requires CutAt(u, JsonFenceMark, v, q1) && CutAt(v, FenceMark, seg, q2)
    ensures JsonFence(text) == Some(Strip(seg))
  {
    SecondPiece(text, JsonFenceMark, p, u);
    CutHead(u, JsonFenceMark, v, q1);
    CutHead(v, FenceMark, seg, q2);
  }

  /** Every text holding "```json" has such a decomposition. */
  lemma JsonFenceCuts(text: string) returns (p: string, u: string, v: string, q1: string,
                                             seg: string, q2: string)
    requires Contains(text, JsonFenceMark)
    ensures MarkAt(text, JsonFenceMark, p, u)
    ensures CutAt(u, JsonFenceMark, v, q1) && CutAt(v, FenceMark, seg, q2)
    ensures |seg| <= |text|
  {
    p, u := MarkExists(text, JsonFenceMark);
    v, q1 := CutExists(u, JsonFenceMark);
    seg, q2 := CutExists(v, FenceMark);
  }

  /** The any-fence text is the stripped text between the first "```" and
      the next one (or the end of the text). Any decomposition of the text
      this way determines the result. */
  lemma AnyFenceSegment(text: string, p: string, u: string, seg: string, q: string)
    requires MarkAt(text, FenceMark, p, u) && CutAt(u, FenceMark, seg, q)
    ensures AnyFence(text) == Some(Strip(seg))
  {
    SecondPiece(text, FenceMark, p, u);
    CutHead(u, FenceMark, seg, q);
    SplitPieces(u, FenceMark);
    SplitAbsent(seg, FenceMark);
  }

  /** Every text holding "```" has such a decomposition. */
  lemma AnyFenceCuts(text: string) returns (p: string, u: string, seg: string, q: string)
    requires Contains(text, FenceMark)
    ensures MarkAt(text, FenceMark, p, u) && CutAt(u, FenceMark, seg, q)
    ensures |seg| <= |text|
  {
    p, u := MarkExists(text, FenceMark);
    seg, q := CutExists(u, FenceMark);
  }
}
