/**
 * The transcript as the backend writes it and the frontend reads it back.
 * The streaming service appends " Speaker n: text" to a session's buffer
 * for every utterance (backend/services/deepgram_service.py); the session
 * keeps that buffer stripped, and the transcript view
 * (frontend/src/components/TranscriptDisplay.tsx) splits it at the labels
 * and recovers one segment per utterance, with its speaker and its
 * trimmed text, as long as every text is on one line, not blank, and
 * without a speaker label of its own, and the last text's trailing
 * whitespace is the same for Python's strip and JavaScript's trim. Texts
 * that are already trimmed come back unchanged.
 */
module RoundTrip {
  import opened Wrappers
  import opened Text
  import Deepgram
  import opened TranscriptDisplay

  /** One utterance with its 1-based speaker number, as the view shows it. */
  datatype Utterance = Utterance(speaker: nat, text: string)

  /** The label in front of the text. */
  function Head(n: nat): string {
    "Speaker " + ShowNat(n) + ": "
  }

  lemma HeadShape(n: nat)
    ensures var h := Head(n);
      |h| == 10 + |ShowNat(n)| && h[0] == 'S' && h[..8] == "Speaker "
      && h[8..] == ShowNat(n) + ": "
  {
  }

  /** An utterance's line: its label, then its text. */
  function Line(u: Utterance): string {
    Head(u.speaker) + u.text
  }

  /** The line is what the streaming service formats for the 0-based id `speaker - 1`. */
  lemma LineIsFormatted(u: Utterance)
    ensures Line(u) == Deepgram.Format(Some(u.speaker - 1), u.text)
  {
  }

  /** The session's buffer after the utterances were appended in order. */
  function Buffer(us: seq<Utterance>): string {
    if |us| == 0 then "" else " " + Line(us[0]) + Buffer(us[1..])
  }

  /** Appending an utterance extends the buffer by a space and its line, as `on_message` does. */
  lemma {:induction false} BufferAppend(us: seq<Utterance>, u: Utterance)
    ensures Buffer(us + [u]) == Buffer(us) + " " + Line(u)
  {
    if |us| == 0 {
      assert Buffer([u]) == " " + Line(u) + Buffer([]);
    } else {
      assert (us + [u])[1..] == us[1..] + [u];
      BufferAppend(us[1..], u);
    }
  }

  /** The lines joined by single spaces: the stripped buffer. */
  function Joined(us: seq<Utterance>): string
    requires |us| > 0
  {
    if |us| == 1 then Line(us[0]) else Line(us[0]) + " " + Joined(us[1..])
  }

  /** The pieces the view's split is expected to produce: each line with the space that follows it. */
  function Pieces(us: seq<Utterance>): seq<string>
    requires |us| > 0
  {
    if |us| == 1 then [Line(us[0])] else [Line(us[0]) + " "] + Pieces(us[1..])
  }

  /** Non-empty, and neither runtime sees whitespace at either end. */
  predicate Trimmed(s: string) {
    && s != []
    && !IsSpace(Python, s[0]) && !IsSpace(JavaScript, s[0])
    && !IsSpace(Python, s[|s| - 1]) && !IsSpace(JavaScript, s[|s| - 1])
  }

  /** No line terminator, so the regex `.` matches every character. */
  predicate OneLine(s: string) {
    forall j :: 0 <= j < |s| ==> !IsLineTerminator(s[j])
  }

  /** No speaker label starts anywhere in the text. */
  predicate Unlabelled(s: string) {
    forall j :: 0 <= j < |s| ==> !LabelAt(s[j..])
  }

  /** Text the view shows unchanged. */
  predicate Displayable(s: string) {
    Trimmed(s) && OneLine(s) && Unlabelled(s)
  }

  /** Shown as one segment: on one line, not blank, and without a speaker label of its own. */
  predicate Visible(s: string) {
    OneLine(s) && !IsBlank(JavaScript, s) && Unlabelled(s)
  }

  /** Every text is visible. */
  predicate AllVisible(us: seq<Utterance>) {
    forall i :: 0 <= i < |us| ==> Visible(us[i].text)
  }

  /** The last text ends with a character Python's strip keeps. */
  predicate EndsVisibly(us: seq<Utterance>) {
    |us| > 0 && var s := us[|us| - 1].text; s != [] && !IsSpace(Python, s[|s| - 1])
  }

  /** Both runtimes see the same trailing whitespace in the last text. */
  predicate AgreedEnd(us: seq<Utterance>) {
    |us| > 0 && var s := us[|us| - 1].text; TrailingSpace(Python, s) == TrailingSpace(JavaScript, s)
  }

  /** The segments the view is expected to show: each speaker with its trimmed text. */
  function Expected(us: seq<Utterance>): seq<Segment> {
    seq(|us|, i requires 0 <= i < |us| => Segment(Strip(JavaScript, us[i].text), Some(us[i].speaker)))
  }

  // ---------------------------------------------------------------------
  // The stripped buffer
  // ---------------------------------------------------------------------

  lemma {:induction false} JoinedEnds(us: seq<Utterance>)
    requires |us| > 0 && us[|us| - 1].text != []
    ensures var j := Joined(us); |j| > 0 && j[0] == 'S' && j[|j| - 1] == us[|us| - 1].text[|us[|us| - 1].text| - 1]
  {
    var j := Joined(us);
    if |us| > 1 {
      var rest := us[1..];
      JoinedEnds(rest);
      assert rest[|rest| - 1] == us[|us| - 1];
      LineEnds(us[0], " ");
      var a, b := Line(us[0]) + " ", Joined(rest);
      assert j == a + b;
      assert j[|j| - 1] == b[|b| - 1];
    } else {
      LineEnds(us[0], "");
      assert j == Line(us[0]) + "";
    }
  }

  /** A line, with anything after it, starts with the label's S; a line ends where its text does. */
  lemma LineEnds(u: Utterance, r: string)
    ensures var t := Line(u) + r; |t| > 0 && t[0] == 'S'
    ensures u.text != [] ==> var l := Line(u); l[|l| - 1] == u.text[|u.text| - 1]
  {
    HeadShape(u.speaker);
    assert (Line(u) + r)[0] == Head(u.speaker)[0];
  }

  lemma {:induction false} BufferIsSpacedJoin(us: seq<Utterance>)
    requires |us| > 0
    ensures Buffer(us) == " " + Joined(us)
  {
    var line := Line(us[0]);
    if |us| > 1 {
      var rest := Joined(us[1..]);
      BufferIsSpacedJoin(us[1..]);
      calc {
        Buffer(us);
        " " + line + Buffer(us[1..]);
        " " + line + (" " + rest);
        { assert " " + line + (" " + rest) == " " + (line + " " + rest); }
        " " + (line + " " + rest);
        " " + Joined(us);
      }
    } else {
      assert Buffer(us) == " " + line + "";
    }
  }

  /** Stripping a buffer whose last text ends visibly removes exactly the leading space. */
  lemma StrippedBuffer(us: seq<Utterance>)
    requires |us| > 0 && us[|us| - 1].text != []
    requires var s := us[|us| - 1].text; !IsSpace(Python, s[|s| - 1])
    ensures Strip(Python, Buffer(us)) == Joined(us)
  {
    BufferIsSpacedJoin(us);
    JoinedEnds(us);
    var j := Joined(us);
    var s := us[|us| - 1].text;
    assert !IsSpace(Python, j[|j| - 1]);
    assert !IsSpace(Python, j[0]);
    assert IsBlank(Python, " ");
    StripPadded(Python, " ", j, "");
    assert " " + j + "" == " " + j;
    StripUnchanged(Python, j);
  }

  // ---------------------------------------------------------------------
  // Where the split cuts
  // ---------------------------------------------------------------------

  /** A label starts with a capital S. */
  lemma LabelStartsWithS(t: string)
    ensures LabelAt(t) ==> t[0] == 'S'
  {
    if LabelAt(t) {
      assert t[..8][0] == t[0];
    }
  }

  /** No character of the label after its first is an S or a line terminator. */
  lemma HeadChars(n: nat)
    ensures var h := Head(n);
      forall k :: 1 <= k < |h| ==> h[k] != 'S' && !IsLineTerminator(h[k])
  {
    var d := ShowNat(n);
    var h := Head(n);
    forall k | 1 <= k < |h|
      ensures h[k] != 'S' && !IsLineTerminator(h[k])
    {
      if k < 8 {
        assert h[k] == "Speaker "[k];
      } else if k < 8 + |d| {
        assert h[k] == d[k - 8];
      }
    }
  }

  lemma {:induction false} DigitsThenColonStraddle(x: string, rest: string)
    decreases |x|
    ensures DigitsThenColon(x + " " + rest) ==> DigitsThenColon(x)
  {
    var y := x + " " + rest;
    if |x| >= 2 {
      assert y[0] == x[0] && y[1] == x[1];
      assert y[1..] == x[1..] + " " + rest;
      DigitsThenColonStraddle(x[1..], rest);
    } else if |x| == 1 {
      assert y[1] == ' ';
      assert y[1..][0] == ' ';
      assert !DigitsThenColon(y[1..]);
    } else {
      assert y[0] == ' ';
    }
  }

  /**
   * A label cannot straddle the end of a text followed by a space and the
   * next label: it would have to lie wholly inside the text.
   */
  lemma LabelStraddle(v: string, rest: string)
    requires rest == [] || rest[0] == 'S'
    ensures LabelAt(v + " " + rest) ==> LabelAt(v)
  {
    var w := v + " " + rest;
    if |v| >= 8 {
      assert w[..8] == v[..8];
      assert w[8..] == v[8..] + " " + rest;
      DigitsThenColonStraddle(v[8..], rest);
    } else if |w| >= 8 {
      assert w[|v|] == ' ';
      assert w[..8][|v|] == w[|v|];
      if |v| == 7 && |w| > 8 {
        assert w[8..][0] == rest[0];
      }
    }
  }

  /** No label starts after the first character of a line, nor in the space that follows it. */
  lemma NoLabelInsideLine(u: Utterance, r: string)
    requires Unlabelled(u.text)
    requires r == [] || (r[0] == ' ' && (|r| == 1 || r[1] == 'S'))
    ensures var t := Line(u) + r;
      forall k :: 1 <= k <= |Line(u)| && k < |t| ==> !LabelAt(t[k..])
  {
    var t := Line(u) + r;
    var h := Head(u.speaker);
    var s := u.text;
    HeadShape(u.speaker);
    HeadChars(u.speaker);
    forall k | 1 <= k <= |Line(u)| && k < |t|
      ensures !LabelAt(t[k..])
    {
      LabelStartsWithS(t[k..]);
      if k < |h| {
        assert t[k..][0] == h[k];
      } else if k < |Line(u)| {
        var j := k - |h|;
        if r == [] {
          assert t[k..] == s[j..];
        } else {
          assert t[k..] == s[j..] + " " + r[1..];
          LabelStraddle(s[j..], r[1..]);
        }
      } else {
        assert t[k..][0] == r[0];
      }
    }
  }

  /** Every line starts with a label. */
  lemma LineIsLabelled(u: Utterance, r: string)
    ensures LabelAt(Line(u) + r)
  {
    var d := ShowNat(u.speaker);
    var t := Line(u) + r;
    HeadShape(u.speaker);
    assert t[..8] == "Speaker ";
    assert t[8..] == d + (": " + u.text + r);
    DigitRunOfNumber(d, ": " + u.text + r);
    DigitsThenColonRun(t[8..]);
  }

  /** A line followed by a space and a label is cut right before that label. */
  lemma CutAfterLine(u: Utterance, rest: string)
    requires Unlabelled(u.text) && LabelAt(rest)
    ensures var t := Line(u) + " " + rest;
      && NextLabel(t, 1) == |Line(u)| + 1
      && t[..|Line(u)| + 1] == Line(u) + " "
      && t[|Line(u)| + 1..] == rest
  {
    var t := Line(u) + " " + rest;
    HeadShape(u.speaker);
    LabelStartsWithS(rest);
    NoLabelInsideLine(u, " " + rest);
    assert t == Line(u) + (" " + rest);
    assert t[|Line(u)| + 1..] == rest;
    NextLabelAt(t, 1, |Line(u)| + 1);
  }

  /** A single line is not cut at all. */
  lemma NoCutInLine(u: Utterance)
    requires Unlabelled(u.text)
    ensures NextLabel(Line(u), 1) == |Line(u)|
  {
    HeadShape(u.speaker);
    NoLabelInsideLine(u, "");
    assert Line(u) + "" == Line(u);
    NextLabelNone(Line(u), 1);
  }

  lemma JoinedIsLabelled(us: seq<Utterance>)
    requires |us| > 0
    ensures LabelAt(Joined(us))
  {
    var tail := if |us| == 1 then "" else " " + Joined(us[1..]);
    assert Joined(us) == Line(us[0]) + tail;
    LineIsLabelled(us[0], tail);
  }

  /** The split cuts the joined lines after each line's trailing space. */
  lemma {:induction false} SplitJoined(us: seq<Utterance>)
    requires |us| > 0 && forall i :: 0 <= i < |us| ==> Unlabelled(us[i].text)
    ensures SplitAtLabels(Joined(us)) == Pieces(us)
  {
    var t := Joined(us);
    HeadShape(us[0].speaker);
    if |us| == 1 {
      NoCutInLine(us[0]);
    } else {
      var rest := Joined(us[1..]);
      JoinedIsLabelled(us[1..]);
      CutAfterLine(us[0], rest);
      SplitJoined(us[1..]);
    }
  }

  // ---------------------------------------------------------------------
  // What each piece parses to
  // ---------------------------------------------------------------------

  /**
   * A line, followed by at most a space, is a labelled piece: the label's
   * digits and colon, whitespace, then the text from its first character
   * that `\s` does not match.
   */
  lemma LineAsPiece(u: Utterance, r: string)
    requires !IsBlank(JavaScript, u.text)
    ensures var a := LeadingSpace(JavaScript, u.text);
      && Line(u) + r == "Speaker " + ShowNat(u.speaker) + ":" + (" " + u.text[..a]) + (u.text[a..] + r)
      && IsBlank(JavaScript, " " + u.text[..a])
      && u.text[a..] + r != [] && !IsSpace(JavaScript, (u.text[a..] + r)[0])
  {
    var a := LeadingSpace(JavaScript, u.text);
    LineSplitAt(u, r, a);
    LeadingIsBlank(JavaScript, u.text);
  }

  /** A line is its label's digits and colon, a space, and its text cut anywhere. */
  lemma LineSplitAt(u: Utterance, r: string, a: nat)
    requires a < |u.text|
    ensures Line(u) + r == "Speaker " + ShowNat(u.speaker) + ":" + (" " + u.text[..a]) + (u.text[a..] + r)
    ensures (u.text[a..] + r)[0] == u.text[a]
  {
    assert u.text == u.text[..a] + u.text[a..];
  }

  /** What follows the first visible character of a one-line text, with at most a space, is one line. */
  lemma OneLineTail(s: string, a: nat, r: string)
    requires OneLine(s) && a <= |s|
    requires r == [] || r == " "
    ensures LineEnd(s[a..] + r, 0) == |s[a..] + r|
  {
    var body := s[a..] + r;
    assert OneLine(body[0..]) by {
      assert body[0..] == body;
      assert forall j :: 0 <= j < |body| - |r| ==> body[j] == s[a + j];
    }
    LineEndOfSuffix(body, 0);
  }

  /** A line, followed by at most a space, matches with its speaker number and its text from the first visible character on. */
  lemma MatchOfLine(u: Utterance, r: string)
    requires OneLine(u.text) && !IsBlank(JavaScript, u.text)
    requires r == [] || r == " "
    ensures SpeakerMatch(Line(u) + r) == Some(LabelMatch(u.speaker, u.text[LeadingSpace(JavaScript, u.text)..] + r))
  {
    var a := LeadingSpace(JavaScript, u.text);
    var body := u.text[a..] + r;
    LineAsPiece(u, r);
    ParseShowNat(u.speaker);
    LabelledMatch(ShowNat(u.speaker), " " + u.text[..a], body);
    OneLineTail(u.text, a, r);
    assert body[..|body|] == body;
  }

  /** A line, followed by at most a space, parses to its speaker number and its trimmed text. */
  lemma ParseLineOfLine(u: Utterance, r: string)
    requires OneLine(u.text) && !IsBlank(JavaScript, u.text)
    requires r == [] || r == " "
    ensures ParseLine(Line(u) + r) == Some(Segment(Strip(JavaScript, u.text), Some(u.speaker)))
  {
    LineStartsWithS(u, r);
    MatchOfLine(u, r);
    var a := LeadingSpace(JavaScript, u.text);
    LeadingIsBlank(JavaScript, u.text);
    assert IsBlank(JavaScript, r);
    StripEitherPadding(JavaScript, u.text[..a], u.text[a..], r);
    SplitAt(u.text, a);
  }

  /** A line starts with the capital S of its label, which no runtime strips. */
  lemma LineStartsWithS(u: Utterance, r: string)
    ensures var t := Line(u) + r; t != [] && t[0] == 'S' && !IsBlank(JavaScript, t)
  {
    HeadShape(u.speaker);
    assert (Line(u) + r)[0] == 'S';
  }

  /** A tail with no line terminator ends the line at the end of the string. */
  lemma {:induction false} LineEndOfSuffix(t: string, q: nat)
    requires q <= |t| && OneLine(t[q..])
    decreases |t| - q
    ensures LineEnd(t, q) == |t|
  {
    if q < |t| {
      assert t[q] == t[q..][0];
      assert t[q + 1..] == t[q..][1..];
      LineEndOfSuffix(t, q + 1);
    }
  }

  lemma {:induction false} CollectAppend(a: seq<string>, b: seq<string>)
    decreases |b|
    ensures CollectSegments(a + b) == CollectSegments(a) + CollectSegments(b)
  {
    if |b| > 0 {
      var b' := b[..|b| - 1];
      assert (a + b)[..|a + b| - 1] == a + b';
      CollectAppend(a, b');
    } else {
      assert a + b == a;
    }
  }

  lemma ExpectedCons(us: seq<Utterance>)
    requires |us| > 0
    ensures Expected(us) == [Segment(Strip(JavaScript, us[0].text), Some(us[0].speaker))] + Expected(us[1..])
  {
  }

  /** The first piece: the first line, with the space that follows it unless it is the last. */
  lemma PiecesCons(us: seq<Utterance>)
    requires |us| > 0
    ensures |us| == 1 ==> Pieces(us) == [Line(us[0]) + ""]
    ensures |us| > 1 ==> Pieces(us) == [Line(us[0]) + " "] + Pieces(us[1..])
  {
    assert Line(us[0]) + "" == Line(us[0]);
  }

  lemma CollectOneLine(u: Utterance, r: string)
    requires OneLine(u.text) && !IsBlank(JavaScript, u.text)
    requires r == [] || r == " "
    ensures CollectSegments([Line(u) + r]) == [Segment(Strip(JavaScript, u.text), Some(u.speaker))]
  {
    ParseLineOfLine(u, r);
    CollectSingle(Line(u) + r);
  }

  lemma {:induction false} CollectPieces(us: seq<Utterance>)
    requires |us| > 0 && forall i :: 0 <= i < |us| ==> OneLine(us[i].text) && !IsBlank(JavaScript, us[i].text)
    ensures CollectSegments(Pieces(us)) == Expected(us)
  {
    var r := if |us| == 1 then "" else " ";
    var single: seq<string> := [Line(us[0]) + r];
    CollectOneLine(us[0], r);
    PiecesCons(us);
    ExpectedCons(us);
    if |us| > 1 {
      CollectPieces(us[1..]);
      CollectAppend(single, Pieces(us[1..]));
    } else {
      assert Expected(us[1..]) == [];
    }
  }

  /** The text without its trailing whitespace, as Python's strip leaves the buffer's end. */
  function RightStripped(s: string): string {
    s[..|s| - TrailingSpace(Python, s)]
  }

  /** What the right strip removes is whitespace after the rest. */
  lemma RightStrippedSplit(s: string)
    ensures var t := RightStripped(s);
      |t| <= |s| && s == t + s[|t|..] && IsBlank(Python, s[|t|..])
  {
    SplitAt(s, |RightStripped(s)|);
  }

  /** The utterances as the stripped buffer holds them: the last text without its trailing whitespace. */
  function Cut(us: seq<Utterance>): (r: seq<Utterance>)
    requires |us| > 0
    ensures |r| == |us| && r[..|us| - 1] == us[..|us| - 1]
    ensures r[|us| - 1] == Utterance(us[|us| - 1].speaker, RightStripped(us[|us| - 1].text))
  {
    var u := us[|us| - 1];
    us[..|us| - 1] + [Utterance(u.speaker, RightStripped(u.text))]
  }

  /** Python's strip of the buffer drops the last text's trailing whitespace along with the leading space. */
  lemma TrailingPadding(us: seq<Utterance>)
    requires |us| > 0
    ensures Strip(Python, Buffer(us)) == Strip(Python, Buffer(Cut(us)))
  {
    var q := CutBuffer(us);
    StripTrailingPadding(Python, Buffer(Cut(us)), q);
  }

  /** The buffer is the buffer of the cut utterances followed by the last text's trailing whitespace. */
  lemma CutBuffer(us: seq<Utterance>) returns (q: string)
    requires |us| > 0
    ensures Buffer(us) == Buffer(Cut(us)) + q && IsBlank(Python, q)
  {
    var n := |us| - 1;
    var c := Cut(us);
    var u, u' := us[n], c[n];
    RightStrippedSplit(u.text);
    q := u.text[|u'.text|..];
    assert Line(u) == Line(u') + q;
    LastSplit(us);
    LastSplit(c);
    BufferAppend(us[..n], u);
    BufferAppend(c[..n], u');
  }

  lemma LastSplit(us: seq<Utterance>)
    requires |us| > 0
    ensures us == us[..|us| - 1] + [us[|us| - 1]]
  {
  }

  /** A text without labels keeps none when its end is cut off. */
  lemma UnlabelledPrefix(s: string, k: nat)
    requires Unlabelled(s) && k <= |s|
    ensures Unlabelled(s[..k])
  {
    forall j | 0 <= j < k
      ensures !LabelAt(s[..k][j..])
    {
      LabelAtExtends(s[..k][j..], s[k..]);
      assert s[..k][j..] + s[k..] == s[j..];
    }
  }

  /**
   * When both runtimes agree on a visible text's trailing whitespace, the
   * text without it is still visible, ends visibly for Python, and trims
   * to the same text.
   */
  lemma RightStrippedVisible(s: string)
    requires Visible(s) && TrailingSpace(Python, s) == TrailingSpace(JavaScript, s)
    ensures var t := RightStripped(s);
      && Visible(t) && t != [] && !IsSpace(Python, t[|t| - 1])
      && Strip(JavaScript, t) == Strip(JavaScript, s)
  {
    var m := TrailingSpace(JavaScript, s);
    var k := |s| - m;
    var t := s[..k];
    assert t == RightStripped(s);
    assert t[k - 1] == s[|s| - 1 - m];
    UnlabelledPrefix(s, k);
    OneLinePrefix(s, k);
    TrailingIsBlank(JavaScript, s);
    SplitAt(s, k);
    StripTrailingPadding(JavaScript, t, s[k..]);
  }

  /** A one-line text stays one line when its end is cut off. */
  lemma OneLinePrefix(s: string, k: nat)
    requires OneLine(s) && k <= |s|
    ensures OneLine(s[..k])
  {
    assert forall j :: 0 <= j < k ==> s[..k][j] == s[j];
  }

  /** Utterances that differ only in the last text's padding are expected to show the same segments. */
  lemma ExpectedSameTrim(a: seq<Utterance>, b: seq<Utterance>)
    requires |a| == |b| > 0
    requires forall i :: 0 <= i < |a| - 1 ==> a[i] == b[i]
    requires a[|a| - 1].speaker == b[|b| - 1].speaker
    requires Strip(JavaScript, a[|a| - 1].text) == Strip(JavaScript, b[|b| - 1].text)
    ensures Expected(a) == Expected(b)
  {
    assert forall i :: 0 <= i < |a| ==> Expected(a)[i] == Expected(b)[i];
  }

  /** The cut utterances are the originals but for the last one, which keeps its speaker. */
  lemma CutAgrees(us: seq<Utterance>)
    requires |us| > 0
    ensures var c, n := Cut(us), |us| - 1;
      && |c| == |us| && (forall i :: 0 <= i < n ==> c[i] == us[i])
      && c[n] == Utterance(us[n].speaker, RightStripped(us[n].text))
  {
    var c, n := Cut(us), |us| - 1;
    assert forall i :: 0 <= i < n ==> c[i] == c[..n][i] && us[i] == us[..n][i];
  }

  /** Cutting the last text's padding keeps every text visible and the expected segments. */
  lemma CutVisible(us: seq<Utterance>)
    requires AllVisible(us) && AgreedEnd(us)
    ensures AllVisible(Cut(us)) && EndsVisibly(Cut(us))
    ensures Expected(Cut(us)) == Expected(us)
  {
    var n := |us| - 1;
    var c := Cut(us);
    CutAgrees(us);
    CutLast(us);
    VisibleParts(c, us);
    ExpectedSameTrim(c, us);
  }

  /** The cut last utterance is visible, ends visibly, and trims as before. */
  lemma CutLast(us: seq<Utterance>)
    requires |us| > 0 && Visible(us[|us| - 1].text) && AgreedEnd(us)
    ensures var c, n := Cut(us), |us| - 1;
      && Visible(c[n].text) && EndsVisibly(c)
      && c[n].speaker == us[n].speaker
      && Strip(JavaScript, c[n].text) == Strip(JavaScript, us[n].text)
  {
    var n := |us| - 1;
    RightStrippedVisible(us[n].text);
  }

  /** Utterances that agree with visible ones but for a last text that is visible too are all visible. */
  lemma VisibleParts(c: seq<Utterance>, us: seq<Utterance>)
    requires |c| == |us| > 0 && AllVisible(us)
    requires forall i :: 0 <= i < |us| - 1 ==> c[i] == us[i]
    requires Visible(c[|c| - 1].text)
    ensures AllVisible(c)
  {
    forall i | 0 <= i < |c|
      ensures Visible(c[i].text)
    {
      if i < |c| - 1 {
        assert c[i] == us[i];
      }
    }
  }

  /**
   * The round trip: the view shows the stripped buffer as exactly one
   * segment per utterance, in order, each with the speaker number the
   * backend formatted and the text trimmed. The texts may be padded; the
   * last one's trailing whitespace must be the same in both runtimes, as
   * Python strips the buffer's end and the view trims each text.
   */
  lemma TranscriptRoundTrip(us: seq<Utterance>)
    requires AllVisible(us) && AgreedEnd(us)
    ensures Segments(Strip(Python, Buffer(us))) == Expected(us)
  {
    var c := Cut(us);
    TrailingPadding(us);
    CutVisible(us);
    EndsVisiblyRoundTrip(c);
  }

  /** The round trip for utterances whose last text ends with a character Python does not strip. */
  lemma EndsVisiblyRoundTrip(us: seq<Utterance>)
    requires AllVisible(us) && EndsVisibly(us)
    ensures Segments(Strip(Python, Buffer(us))) == Expected(us)
  {
    StrippedBuffer(us);
    JoinedEnds(us);
    SplitJoined(us);
    CollectPieces(us);
  }

  /** Displayable texts come back verbatim. */
  lemma DisplayableRoundTrip(us: seq<Utterance>)
    requires |us| > 0 && forall i :: 0 <= i < |us| ==> Displayable(us[i].text)
    ensures var segs := Segments(Strip(Python, Buffer(us)));
      |segs| == |us| && forall i :: 0 <= i < |us| ==> segs[i] == Segment(us[i].text, Some(us[i].speaker))
  {
    forall i | 0 <= i < |us|
      ensures Visible(us[i].text) && Strip(JavaScript, us[i].text) == us[i].text
    {
      StripUnchanged(JavaScript, us[i].text);
    }
    TranscriptRoundTrip(us);
  }
}
