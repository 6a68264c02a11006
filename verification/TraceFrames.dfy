/** Taking trace frames out of a streamed reply. */
module TraceFrames {
  import opened Options

  const OPEN := "[TRACE]"
  const CLOSE := "[/TRACE]"

  ghost predicate At(s: string, i: nat, mark: string) {
    i + |mark| <= |s| && s[i..i + |mark|] == mark
  }

  ghost predicate Without(s: string, mark: string) {
    forall i: nat :: i <= |s| ==> !At(s, i, mark)
  }

  lemma AtNext(s: string, mark: string)
    requires s != ""
    ensures forall i: nat :: i > 0 ==> (At(s, i, mark) <==> At(s[1..], i - 1, mark))
  {
    forall i: nat | i > 0 && i + |mark| <= |s|
      ensures At(s, i, mark) <==> At(s[1..], i - 1, mark)
    {
      Shifted(s, i, |mark|);
    }
  }

  lemma Shifted(s: string, i: nat, n: nat)
    requires 0 < i && i + n <= |s|
    ensures s[i..i + n] == s[1..][i - 1..i - 1 + n]
  {
    var here, there := s[i..i + n], s[1..][i - 1..i - 1 + n];
    forall k | 0 <= k < |here|
      ensures here[k] == there[k]
    {
    }
  }

  /** Where `mark` first stands in `s`. */
  function Find(s: string, mark: string): (r: Option<nat>)
    ensures r.Some? ==> At(s, r.value, mark) && forall i: nat :: i < r.value ==> !At(s, i, mark)
    ensures r.None? <==> Without(s, mark)
  {
    if mark <= s then
      assert At(s, 0, mark);
      Some(0)
    else if s == "" then None
    else
      AtNext(s, mark);
      match Find(s[1..], mark)
      case None => None
      case Some(i) => Some(i + 1)
  }

  /**
   * What the pattern replaces: at an opening marker, everything up to the first closing marker after it,
   * if there is one; anything else stays.
   */
  function Strip(s: string): string
    decreases |s|
  {
    if s == "" then ""
    else if OPEN <= s && Find(s[|OPEN|..], CLOSE).Some? then
      var body := Find(s[|OPEN|..], CLOSE).value;
      Strip(s[|OPEN| + body + |CLOSE|..])
    else [s[0]] + Strip(s[1..])
  }

  // ── Stripping undoes emitting ───────────────────────────────────────────────────────────────

  function Frame(body: string): string { OPEN + body + CLOSE }

  /** The stream of texts with a frame before each but the first. */
  function Emit(texts: seq<string>, bodies: seq<string>): string
    requires |texts| == |bodies| + 1
  {
    if bodies == [] then texts[0] else texts[0] + Frame(bodies[0]) + Emit(texts[1..], bodies[1..])
  }

  function Concat(texts: seq<string>): string {
    if texts == [] then "" else texts[0] + Concat(texts[1..])
  }

  /** A marker starts with its only '['. */
  ghost predicate OpensOnce(mark: string) {
    mark != "" && mark[0] == '[' && forall i :: 0 < i < |mark| ==> mark[i] != '['
  }

  /** So after a text without it, it first stands where it was put. */
  lemma FirstWherePut(text: string, mark: string, rest: string)
    requires OpensOnce(mark) && Without(text, mark)
    ensures Find(text + mark + rest, mark) == Some(|text|)
  {
    var s := text + mark + rest;
    assert At(s, |text|, mark);
    forall i: nat | i < |text|
      ensures !At(s, i, mark)
    {
      if i + |mark| <= |text| {
        assert !At(text, i, mark);
        assert s[i..i + |mark|] == text[i..i + |mark|];
      } else {
        assert s[i..i + |mark|][|text| - i] == s[|text|] == '[';
      }
    }
  }

  lemma {:induction false} TextStays(text: string, rest: string)
    requires Without(text, OPEN) && (rest == "" || OPEN <= rest)
    ensures Strip(text + rest) == text + Strip(rest)
    decreases |text|
  {
    hide Without, Strip;
    if text == "" {
      assert text + rest == rest && text + Strip(rest) == Strip(rest);
    } else {
      NotAtTheFront(text, rest);
      WithoutTail(text, OPEN);
      TextStays(text[1..], rest);
      FirstApart(text, rest);
      FirstApart(text, Strip(rest));
      StripNext(text[0], text[1..] + rest);
    }
  }

  lemma FirstApart(s: string, t: string)
    requires s != ""
    ensures s + t == [s[0]] + (s[1..] + t)
  {
  }

  lemma StripNext(c: char, s: string)
    requires !(OPEN <= [c] + s)
    ensures Strip([c] + s) == [c] + Strip(s)
  {
    hide Find;
    assert ([c] + s)[1..] == s;
  }

  lemma NotAtTheFront(text: string, rest: string)
    requires text != "" && Without(text, OPEN) && (rest == "" || OPEN <= rest)
    ensures !(OPEN <= text + rest)
  {
    var s := text + rest;
    if |OPEN| <= |text| {
      assert !At(text, 0, OPEN);
      assert s[..|OPEN|] == text[0..|OPEN|];
    } else if rest != "" {
      assert s[|text|] == rest[0] == '[';
    }
  }

  lemma WithoutTail(s: string, mark: string)
    requires s != "" && Without(s, mark)
    ensures Without(s[1..], mark)
  {
    AtNext(s, mark);
    forall i: nat | i <= |s[1..]|
      ensures !At(s[1..], i, mark)
    {
      assert !At(s, i + 1, mark);
    }
  }

  lemma FrameGoes(body: string, rest: string)
    requires Without(body, CLOSE)
    ensures Strip(Frame(body) + rest) == Strip(rest)
  {
    var s := Frame(body) + rest;
    assert s[|OPEN|..] == body + CLOSE + rest;
    FirstWherePut(body, CLOSE, rest);
    assert s[|OPEN| + |body| + |CLOSE|..] == rest;
  }

  /** Stripping the stream gives back the texts, whatever the frames hold, as long as no text has the
    * opening marker and no frame the closing one. */
  lemma {:induction false} StripUndoesEmit(texts: seq<string>, bodies: seq<string>)
    requires |texts| == |bodies| + 1
    requires forall t :: t in texts ==> Without(t, OPEN)
    requires forall b :: b in bodies ==> Without(b, CLOSE)
    ensures Strip(Emit(texts, bodies)) == Concat(texts)
    decreases |bodies|
  {
    if bodies == [] {
      TextStays(texts[0], "");
      assert texts[0] + "" == texts[0];
      assert Concat(texts) == texts[0] + Concat(texts[1..]);
    } else {
      var rest := Emit(texts[1..], bodies[1..]);
      assert Emit(texts, bodies) == texts[0] + (Frame(bodies[0]) + rest);
      TextStays(texts[0], Frame(bodies[0]) + rest);
      FrameGoes(bodies[0], rest);
      StripUndoesEmit(texts[1..], bodies[1..]);
    }
  }

  // ── Any input ───────────────────────────────────────────────────────────────────────────────

  predicate Subsequence(a: string, b: string) {
    a == "" || (b != "" && ((a[0] == b[0] && Subsequence(a[1..], b[1..])) || Subsequence(a, b[1..])))
  }

  lemma {:induction false} SubsequenceOfLonger(a: string, b: string, k: nat)
    requires k <= |b| && Subsequence(a, b[k..])
    ensures Subsequence(a, b)
    decreases k
  {
    if k == 0 {
      assert b[0..] == b;
    } else {
      assert b[k..] == b[1..][k - 1..];
      SubsequenceOfLonger(a, b[1..], k - 1);
    }
  }

  /** Stripping only takes characters out, in order. */
  lemma {:induction false} StripOnlyTakesOut(s: string)
    ensures Subsequence(Strip(s), s)
    decreases |s|
  {
    if s == "" {
    } else if OPEN <= s && Find(s[|OPEN|..], CLOSE).Some? {
      var k := |OPEN| + Find(s[|OPEN|..], CLOSE).value + |CLOSE|;
      StripOnlyTakesOut(s[k..]);
      SubsequenceOfLonger(Strip(s[k..]), s, k);
    } else {
      StripOnlyTakesOut(s[1..]);
    }
  }

  /** A frame: an opening marker with a closing one somewhere after it. */
  ghost predicate FrameAt(s: string, i: nat) {
    At(s, i, OPEN) && !Without(s[i + |OPEN|..], CLOSE)
  }

  lemma {:induction false} StripIsShorter(s: string)
    ensures |Strip(s)| <= |s|
    decreases |s|
  {
    if s == "" {
    } else if OPEN <= s && Find(s[|OPEN|..], CLOSE).Some? {
      StripIsShorter(s[|OPEN| + Find(s[|OPEN|..], CLOSE).value + |CLOSE|..]);
    } else {
      StripIsShorter(s[1..]);
    }
  }

  /** A stream comes through unchanged exactly when it has no frame: an opening marker that is never
    * closed stays, and a closed one never does. */
  lemma {:induction false} UnchangedExactlyWithoutFrames(s: string)
    ensures Strip(s) == s <==> forall i: nat :: i <= |s| ==> !FrameAt(s, i)
    decreases |s|
  {
    if s == "" {
    } else if OPEN <= s && Find(s[|OPEN|..], CLOSE).Some? {
      assert FrameAt(s, 0);
      StripIsShorter(s[|OPEN| + Find(s[|OPEN|..], CLOSE).value + |CLOSE|..]);
    } else {
      UnchangedExactlyWithoutFrames(s[1..]);
      assert !FrameAt(s, 0);
      FrameNext(s);
      FramesMoved(s);
      hide FrameAt, Find;
      assert s == [s[0]] + s[1..];
      assert Strip(s)[1..] == Strip(s[1..]);
    }
  }

  lemma FrameNext(s: string)
    requires s != ""
    ensures forall i: nat :: 0 < i <= |s| ==> (FrameAt(s, i) <==> FrameAt(s[1..], i - 1))
  {
    AtNext(s, OPEN);
    forall i: nat | 0 < i <= |s|
      ensures FrameAt(s, i) <==> FrameAt(s[1..], i - 1)
    {
      if i + |OPEN| <= |s| {
        assert s[i + |OPEN|..] == s[1..][i - 1 + |OPEN|..];
      }
    }
  }

  lemma FramesMoved(s: string)
    requires s != "" && !FrameAt(s, 0)
    requires forall i: nat | 0 < i <= |s| :: FrameAt(s, i) <==> FrameAt(s[1..], i - 1)
    ensures (forall i: nat :: i <= |s| ==> !FrameAt(s, i)) <==> (forall i: nat :: i <= |s[1..]| ==> !FrameAt(s[1..], i))
  {
    hide FrameAt;
    if k: nat :| k <= |s[1..]| && FrameAt(s[1..], k) {
      assert FrameAt(s, k + 1);
    }
  }

  /** A text with a frame after it comes through as the text. */
  lemma OneFrame(text: string, body: string)
    requires Without(text, "[TRACE]") && Without(body, "[/TRACE]")
    ensures Strip(text + "[TRACE]" + body + "[/TRACE]") == text
  {
    hide Strip, Emit, Concat, Without;
    EmptyIsWithout();
    EmitOne(text, body);
    StripUndoesEmit([text, ""], [body]);
  }

  lemma EmptyIsWithout()
    ensures Without("", OPEN)
  {
  }

  lemma EmitOne(text: string, body: string)
    ensures Emit([text, ""], [body]) == text + "[TRACE]" + body + "[/TRACE]" && Concat([text, ""]) == text
  {
    var texts, bodies := [text, ""], [body];
    assert texts[1..] == [""] && bodies[1..] == [] && [""][1..] == [];
    assert Emit([""], []) == "" && Concat([""]) == "" + Concat([]);
    assert Emit(texts, bodies) == text + Frame(body) + "";
    EndsEmpty(text + Frame(body));
    EndsEmpty(text);
    hide Emit;
    assert text + Frame(body) == text + "[TRACE]" + body + "[/TRACE]";
  }

  lemma EndsEmpty(s: string)
    ensures s + "" == s
  {
  }

  // ── When one pass is enough ─────────────────────────────────────────────────────────────────

  /** A second pass over an emitted stream changes nothing exactly when the texts, put together, hold no frame. */
  lemma OnePassIsEnoughExactly(texts: seq<string>, bodies: seq<string>)
    requires |texts| == |bodies| + 1
    requires forall t :: t in texts ==> Without(t, OPEN)
    requires forall b :: b in bodies ==> Without(b, CLOSE)
    ensures Strip(Strip(Emit(texts, bodies))) == Strip(Emit(texts, bodies)) <==>
            forall i: nat :: i <= |Concat(texts)| ==> !FrameAt(Concat(texts), i)
  {
    StripUndoesEmit(texts, bodies);
    UnchangedExactlyWithoutFrames(Concat(texts));
  }

  /** The text breaks off inside an opening marker. */
  predicate EndsInPart(text: string) {
    exists m :: 0 < m < |OPEN| && m <= |text| && text[|text| - m..] == OPEN[..m]
  }

  /** Such a frame opens across the end of a text: the text where its marker starts ends in part of it. */
  lemma {:induction false} OpensAcrossTexts(texts: seq<string>, i: nat) returns (n: nat)
    requires forall t :: t in texts ==> Without(t, OPEN)
    requires At(Concat(texts), i, OPEN)
    ensures n + 1 < |texts| && EndsInPart(texts[n])
    ensures |Concat(texts[..n])| <= i < |Concat(texts[..n + 1])| < i + |OPEN|
    decreases |texts|
  {
    var first, all := texts[0], Concat(texts);
    var rest := Concat(texts[1..]);
    if |first| <= i {
      assert all[i..i + |OPEN|] == rest[i - |first|..i - |first| + |OPEN|];
      var m := OpensAcrossTexts(texts[1..], i - |first|);
      n := m + 1;
      assert texts[..n][1..] == texts[1..][..m] && texts[..n + 1][1..] == texts[1..][..m + 1];
    } else {
      n := 0;
      BreaksOff(first, rest, i);
      assert texts[..1] == [first] && [first][1..] == [];
    }
  }

  lemma AtInside(text: string, rest: string, i: nat)
    requires i + |OPEN| <= |text|
    ensures At(text + rest, i, OPEN) <==> At(text, i, OPEN)
  {
    assert (text + rest)[i..i + |OPEN|] == text[i..i + |OPEN|];
  }

  lemma BreaksOff(text: string, rest: string, i: nat)
    requires Without(text, OPEN) && i < |text| && At(text + rest, i, OPEN)
    ensures |text| < i + |OPEN| && rest != "" && EndsInPart(text)
  {
    var all := text + rest;
    if i + |OPEN| <= |text| {
      AtInside(text, rest, i);
    }
    var m := |text| - i;
    assert text[i..] == all[i..i + |OPEN|][..m];
    assert text[|text| - m..] == OPEN[..m];
  }

  /** So one pass is enough when no text but the last breaks off inside an opening marker. */
  lemma OnePassIsEnough(texts: seq<string>, bodies: seq<string>)
    requires |texts| == |bodies| + 1
    requires forall t :: t in texts ==> Without(t, OPEN)
    requires forall b :: b in bodies ==> Without(b, CLOSE)
    requires forall n :: 0 <= n < |texts| - 1 ==> !EndsInPart(texts[n])
    ensures Strip(Strip(Emit(texts, bodies))) == Strip(Emit(texts, bodies))
  {
    OnePassIsEnoughExactly(texts, bodies);
    forall i: nat | i <= |Concat(texts)|
      ensures !FrameAt(Concat(texts), i)
    {
      if At(Concat(texts), i, OPEN) {
        var n := OpensAcrossTexts(texts, i);
      }
    }
  }

  lemma NoNewOpening(tail: string, body: string)
    requires Without(body, OPEN) && |tail| < |OPEN| && tail == OPEN[|OPEN| - |tail|..]
    ensures Without(tail + body + CLOSE, OPEN)
  {
    var s, end := tail + body + CLOSE, |tail| + |body|;
    forall i: nat | i <= |s|
      ensures !At(s, i, OPEN)
    {
      if i + |OPEN| <= |s| {
        OnlyStartsOpening(s, i);
        if |tail| <= i && i + |OPEN| <= end {
          assert !At(body, i - |tail|, OPEN);
          assert s[i..i + |OPEN|] == body[i - |tail|..i - |tail| + |OPEN|];
        } else if i < |tail| {
          assert s[i] == OPEN[|OPEN| - |tail| + i];
        } else if i < end {
          assert s[end] == CLOSE[0];
        } else {
          assert s[i + 1] == CLOSE[i + 1 - end];
        }
      }
    }
  }

  lemma OnlyStartsOpening(s: string, i: nat)
    requires i + |OPEN| <= |s|
    ensures At(s, i, OPEN) ==> s[i] == '[' && s[i + 1] == 'T' && forall j :: i < j < i + |OPEN| ==> s[j] != '['
  {
    assert forall j :: i <= j < i + |OPEN| ==> s[i..i + |OPEN|][j - i] == s[j];
  }

  lemma Regroup(a: string, b: string, c: string, d: string, e: string)
    ensures a + b + c + d + e == a + (b + (c + d + e)) && a + c + d + e == a + (c + d + e)
  {
  }

  /** One pass is not always enough: taking a frame out can join a new one around it. */
  lemma StripCanJoinAFrame(head: string, tail: string, body: string)
    requires head + tail == OPEN && head != "" && tail != "" && Without(body, CLOSE) && Without(body, OPEN)
    ensures Strip(head + Frame("") + tail + body + CLOSE) == Frame(body)
    ensures FrameAt(Frame(body), 0)
  {
    var rest := tail + body + CLOSE;
    Regroup(head, Frame(""), tail, body, CLOSE);
    assert Without(head, OPEN);
    assert tail == OPEN[|OPEN| - |tail|..];
    NoNewOpening(tail, body);
    TextStays(rest, "");
    FrameGoes("", rest);
    TextStays(head, Frame("") + rest);
    JoinedFrame(body);
    hide *;
    assert rest + "" == rest;
  }

  lemma JoinedFrame(body: string)
    ensures FrameAt(Frame(body), 0)
  {
    assert Frame(body)[|OPEN|..] == body + CLOSE;
    assert At(body + CLOSE, |body|, CLOSE);
  }
}
