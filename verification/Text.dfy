/** Optional values and the few Python string operations the services rely on. */
module Text {

  datatype Option<+T> = None | Some(value: T)

  /** Characters removed by Python's str.strip() with no argument. */
  predicate IsSpace(c: char) {
    || '\U{0009}' <= c <= '\U{000D}'
    || '\U{001C}' <= c <= '\U{0020}'
    || c == '\U{0085}' || c == '\U{00A0}' || c == '\U{1680}'
    || '\U{2000}' <= c <= '\U{200A}'
    || c == '\U{2028}' || c == '\U{2029}' || c == '\U{202F}' || c == '\U{205F}' || c == '\U{3000}'
  }

  function StripLeft(s: string): (r: string)
    ensures |r| <= |s| && r == s[|s| - |r|..]
    ensures r != [] ==> !IsSpace(r[0])
    ensures forall k :: 0 <= k < |s| - |r| ==> IsSpace(s[k])
  {
    if s == [] || !IsSpace(s[0]) then s else StripLeft(s[1..])
  }

  function StripRight(s: string): (r: string)
    ensures |r| <= |s| && r == s[..|r|]
    ensures r != [] ==> !IsSpace(r[|r| - 1])
    ensures forall k :: |r| <= k < |s| ==> IsSpace(s[k])
  {
    if s == [] || !IsSpace(s[|s| - 1]) then s else StripRight(s[..|s| - 1])
  }

  /** str.strip() */
  function Strip(s: string): string {
    StripRight(StripLeft(s))
  }

  /** The white space of Python's str, character by character. */
  lemma WhiteSpace(c: char)
    ensures IsSpace(c) <==> c as int in {
      9, 10, 11, 12, 13, 28, 29, 30, 31, 32, 133, 160, 5760,
      8192, 8193, 8194, 8195, 8196, 8197, 8198, 8199, 8200, 8201, 8202, 8232, 8233, 8239, 8287, 12288}
  {
  }

  predicate AllSpace(s: string) {
    forall k :: 0 <= k < |s| ==> IsSpace(s[k])
  }

  /** What strip() removes is white space at both ends, and it removes all of it. */
  lemma StripSplits(s: string) returns (before: string, after: string)
    ensures s == before + Strip(s) + after && AllSpace(before) && AllSpace(after)
    ensures Strip(s) != "" ==> !IsSpace(Strip(s)[0]) && !IsSpace(Strip(s)[|Strip(s)| - 1])
  {
    hide StripLeft, StripRight, IsSpace;
    var left, all := StripLeft(s), Strip(s);
    before, after := s[..|s| - |left|], left[|all|..];
    assert left == all + after;
  }

  /** Nothing is left of a text exactly when all of it is white space. */
  lemma StripBlank(s: string)
    ensures Strip(s) == "" <==> AllSpace(s)
  {
    hide StripLeft, StripRight, IsSpace;
    var left := StripLeft(s);
    if left != "" {
      assert !IsSpace(left[0]) && left[0] == s[|s| - |left|];
    }
  }

  /** A text that neither starts nor ends with white space is kept as it is. */
  lemma StripSolid(s: string)
    requires s != "" ==> !IsSpace(s[0]) && !IsSpace(s[|s| - 1])
    ensures Strip(s) == s
  {
  }

  /** sep.join(parts) */
  function Join(sep: string, parts: seq<string>): string {
    if parts == [] then ""
    else if |parts| == 1 then parts[0]
    else parts[0] + sep + Join(sep, parts[1..])
  }

  // ---- what joining and stripping keep ----

  predicate OccursAt(text: string, part: string, i: nat) {
    i + |part| <= |text| && text[i..i + |part|] == part
  }

  ghost predicate Contains(text: string, part: string) {
    exists i :: OccursAt(text, part, i)
  }

  lemma ContainsShifted(before: string, text: string, after: string, part: string)
    requires Contains(text, part)
    ensures Contains(before + text + after, part)
  {
    var i: nat :| OccursAt(text, part, i);
    assert OccursAt(before + text + after, part, |before| + i);
  }

  lemma {:induction false} JoinContains(sep: string, parts: seq<string>, k: nat)
    requires k < |parts|
    ensures Contains(Join(sep, parts), parts[k])
  {
    var part := parts[k];
    if k == 0 {
      var rest := if |parts| == 1 then "" else sep + Join(sep, parts[1..]);
      assert OccursAt(part, part, 0);
      assert Join(sep, parts) == "" + part + rest;
      ContainsShifted("", part, rest, part);
    } else {
      JoinContains(sep, parts[1..], k - 1);
      assert Join(sep, parts) == (parts[0] + sep) + Join(sep, parts[1..]) + "";
      ContainsShifted(parts[0] + sep, Join(sep, parts[1..]), "", part);
    }
  }

  /** Neither starts nor ends with white space. */
  predicate Solid(s: string) {
    s != "" ==> !IsSpace(s[0]) && !IsSpace(s[|s| - 1])
  }

  lemma StripEnds(s: string)
    ensures Solid(Strip(s))
  {
    hide StripLeft, StripRight, IsSpace;
  }

  /** Stripping a text keeps every part that neither starts nor ends with white space. */
  lemma StripContains(text: string, part: string)
    requires Contains(text, part) && Solid(part)
    ensures Contains(Strip(text), part)
  {
    var i: nat :| OccursAt(text, part, i);
    StripLeftKeeps(text, part, i);
    var left := StripLeft(text);
    StripRightKeeps(left, part, i - (|text| - |left|));
    hide StripLeft, StripRight, IsSpace, OccursAt;
    if part == "" {
      EmptyOccurs(Strip(text));
    }
  }

  lemma EmptyOccurs(text: string)
    ensures Contains(text, "")
  {
    assert OccursAt(text, "", 0);
  }

  lemma StripLeftKeeps(text: string, part: string, i: nat)
    requires OccursAt(text, part, i) && Solid(part)
    ensures
      var cut := |text| - |StripLeft(text)|;
      part != "" ==> i >= cut && OccursAt(StripLeft(text), part, i - cut)
  {
    hide StripLeft, IsSpace;
    if part != "" {
      assert text[i..i + |part|][0] == text[i];
      var left := StripLeft(text);
      var cut := |text| - |left|;
      assert left[i - cut..i - cut + |part|] == text[i..i + |part|];
    }
  }

  lemma StripRightKeeps(text: string, part: string, i: int)
    requires part != "" ==> i >= 0 && OccursAt(text, part, i)
    requires Solid(part)
    ensures part != "" ==> OccursAt(StripRight(text), part, i)
  {
    hide StripRight, IsSpace;
    if part != "" {
      var last := i + |part| - 1;
      assert text[i..i + |part|][|part| - 1] == text[last];
      var kept := StripRight(text);
      assert kept[i..i + |part|] == text[i..i + |part|];
    }
  }

  // ---- a joined text, position by position ----

  /** Where part k starts when each part is followed by the separator. */
  function PartStart(sep: string, parts: seq<string>, k: nat): (at: nat)
    requires k <= |parts|
    ensures k > 0 ==> at >= |sep|
  {
    if k == 0 then 0 else PartStart(sep, parts, k - 1) + |parts[k - 1]| + |sep|
  }

  /** `text` is the parts in order, the separator between neighbours, and nothing else. */
  ghost predicate LaidOut(sep: string, parts: seq<string>, text: string) {
    && |text| == (if parts == [] then 0 else PartStart(sep, parts, |parts|) - |sep|)
    && (forall k :: 0 <= k < |parts| ==> OccursAt(text, parts[k], PartStart(sep, parts, k)))
    && (forall k :: 0 < k < |parts| ==> OccursAt(text, sep, PartStart(sep, parts, k) - |sep|))
  }

  lemma {:induction false} PartStartRest(sep: string, parts: seq<string>, k: nat)
    requires 0 < k <= |parts|
    ensures PartStart(sep, parts, k) == |parts[0]| + |sep| + PartStart(sep, parts[1..], k - 1)
  {
    if k > 1 {
      PartStartRest(sep, parts, k - 1);
      assert parts[1..][k - 2] == parts[k - 1];
    } else {
      assert PartStart(sep, parts, 0) == 0;
    }
  }

  lemma OccursShifted(before: string, text: string, part: string, i: nat)
    requires OccursAt(text, part, i)
    ensures OccursAt(before + text, part, |before| + i)
  {
    assert (before + text)[|before| + i..|before| + i + |part|] == text[i..i + |part|];
  }

  /** sep.join(parts) lays the parts out in order. */
  lemma {:induction false} JoinLaidOut(sep: string, parts: seq<string>)
    ensures LaidOut(sep, parts, Join(sep, parts))
  {
    hide OccursAt;
    if parts == [] {
    } else if |parts| == 1 {
      PartStartRest(sep, parts, 1);
      OccursWhole(parts[0]);
    } else {
      JoinLaidOut(sep, parts[1..]);
      JoinStep(sep, parts);
    }
  }

  lemma OccursWhole(text: string)
    ensures OccursAt(text, text, 0)
  {
  }

  lemma JoinStep(sep: string, parts: seq<string>)
    requires |parts| > 1 && LaidOut(sep, parts[1..], Join(sep, parts[1..]))
    ensures LaidOut(sep, parts, Join(sep, parts))
  {
    hide OccursAt, PartStart;
    JoinFirst(sep, parts);
    hide Join;
    PartStartRest(sep, parts, |parts|);
    PartStartZero(sep, parts);
    forall k | 0 < k < |parts|
      ensures OccursAt(Join(sep, parts), parts[k], PartStart(sep, parts, k))
      ensures OccursAt(Join(sep, parts), sep, PartStart(sep, parts, k) - |sep|)
    {
      assert parts[1..][k - 1] == parts[k];
      JoinStepAt(sep, parts, k);
    }
  }

  lemma JoinStepAt(sep: string, parts: seq<string>, k: nat)
    requires 0 < k < |parts|
    requires OccursAt(Join(sep, parts[1..]), parts[k], PartStart(sep, parts[1..], k - 1))
    requires k > 1 ==> OccursAt(Join(sep, parts[1..]), sep, PartStart(sep, parts[1..], k - 1) - |sep|)
    ensures OccursAt(Join(sep, parts), parts[k], PartStart(sep, parts, k))
    ensures OccursAt(Join(sep, parts), sep, PartStart(sep, parts, k) - |sep|)
  {
    hide OccursAt, PartStart, Join;
    var tail, at := Join(sep, parts[1..]), PartStart(sep, parts[1..], k - 1);
    JoinFirst(sep, parts);
    PartStartZero(sep, parts[1..]);
    PartStartRest(sep, parts, k);
    OccursLater(parts[0], sep, tail, parts[k], at);
    if k > 1 {
      OccursLater(parts[0], sep, tail, sep, at - |sep|);
    }
  }

  lemma JoinFirst(sep: string, parts: seq<string>)
    requires |parts| > 1
    ensures Join(sep, parts) == parts[0] + sep + Join(sep, parts[1..])
    ensures OccursAt(Join(sep, parts), parts[0], 0) && OccursAt(Join(sep, parts), sep, |parts[0]|)
  {
    var text, tail := Join(sep, parts), Join(sep, parts[1..]);
    assert text == parts[0] + sep + tail;
    assert text[0..|parts[0]|] == parts[0];
    assert text[|parts[0]|..|parts[0]| + |sep|] == sep;
  }

  lemma OccursLater(a: string, b: string, text: string, part: string, i: nat)
    requires OccursAt(text, part, i)
    ensures OccursAt(a + b + text, part, |a| + |b| + i)
  {
    assert |a + b| == |a| + |b|;
    OccursShifted(a + b, text, part, i);
  }

  /** Only one text is laid out so. */
  lemma {:induction false} LaidOutUnique(sep: string, parts: seq<string>, text: string)
    requires LaidOut(sep, parts, text)
    ensures text == Join(sep, parts)
  {
    if parts == [] {
    } else if |parts| == 1 {
      PartStartRest(sep, parts, 1);
      assert text[0..|text|] == text;
    } else {
      LaidOutRest(sep, parts, text);
      LaidOutFirst(sep, parts, text);
      hide LaidOut, OccursAt;
      LaidOutUnique(sep, parts[1..], text[PartStart(sep, parts, 1)..]);
    }
  }

  lemma LaidOutFirst(sep: string, parts: seq<string>, text: string)
    requires |parts| > 1 && LaidOut(sep, parts, text)
    ensures PartStart(sep, parts, 1) == |parts[0]| + |sep| <= |text|
    ensures text == parts[0] + sep + text[PartStart(sep, parts, 1)..]
  {
    hide PartStart, OccursAt;
    LaidOutRest(sep, parts, text);
    PartStartZero(sep, parts);
    SplitTwo(text, parts[0], sep);
  }

  lemma SplitTwo(text: string, a: string, b: string)
    requires OccursAt(text, a, 0) && OccursAt(text, b, |a|)
    ensures |a| + |b| <= |text| && text == a + b + text[|a| + |b|..]
  {
    assert text == text[0..|a|] + text[|a|..|a| + |b|] + text[|a| + |b|..];
  }

  lemma LaidOutRest(sep: string, parts: seq<string>, text: string)
    requires |parts| > 1 && LaidOut(sep, parts, text)
    ensures PartStart(sep, parts, 1) == |parts[0]| + |sep| <= |text|
    ensures LaidOut(sep, parts[1..], text[PartStart(sep, parts, 1)..])
  {
    hide OccursAt, PartStart;
    PartStartRest(sep, parts, |parts|);
    PartStartRest(sep, parts, 1);
    PartStartZero(sep, parts[1..]);
    var at := PartStart(sep, parts, 1);
    assert OccursAt(text, parts[1], at);
    OccursWithin(text, parts[1], at);
    forall k | 0 <= k < |parts[1..]|
      ensures OccursAt(text[at..], parts[1..][k], PartStart(sep, parts[1..], k))
      ensures k > 0 ==> OccursAt(text[at..], sep, PartStart(sep, parts[1..], k) - |sep|)
    {
      assert OccursAt(text, parts[k + 1], PartStart(sep, parts, k + 1));
      assert OccursAt(text, sep, PartStart(sep, parts, k + 1) - |sep|);
      RestAt(sep, parts, text, at, k);
    }
  }

  lemma PartStartZero(sep: string, parts: seq<string>)
    ensures PartStart(sep, parts, 0) == 0
  {
  }

  lemma OccursWithin(text: string, part: string, i: nat)
    requires OccursAt(text, part, i)
    ensures i + |part| <= |text|
  {
  }

  lemma RestAt(sep: string, parts: seq<string>, text: string, at: nat, k: nat)
    requires k + 1 < |parts| && at == |parts[0]| + |sep| <= |text|
    requires OccursAt(text, parts[k + 1], PartStart(sep, parts, k + 1))
    requires OccursAt(text, sep, PartStart(sep, parts, k + 1) - |sep|)
    ensures OccursAt(text[at..], parts[1..][k], PartStart(sep, parts[1..], k))
    ensures k > 0 ==> OccursAt(text[at..], sep, PartStart(sep, parts[1..], k) - |sep|)
  {
    hide OccursAt, PartStart;
    PartStartRest(sep, parts, k + 1);
    assert parts[1..][k] == parts[k + 1];
    OccursCut(text, parts[k + 1], PartStart(sep, parts, k + 1), at);
    if k > 0 {
      OccursCut(text, sep, PartStart(sep, parts, k + 1) - |sep|, at);
    }
  }

  lemma OccursCut(text: string, part: string, i: nat, at: nat)
    requires at <= i && at <= |text| && OccursAt(text, part, i)
    ensures OccursAt(text[at..], part, i - at)
  {
    assert text[at..][i - at..i - at + |part|] == text[i..i + |part|];
  }
}
