/**
 * The transcript view's parser and colouring
 * (frontend/src/components/TranscriptDisplay.tsx): the transcript is split
 * before every "Speaker <digits>:" label, each piece is matched against
 * `^Speaker (\d+):\s*(.+)`, and each speaker number picks one of six colours.
 *
 * The regular expressions are modelled by hand: the split's zero-width
 * lookahead as cut points, the match by its greedy-then-backtrack outcome.
 */
module TranscriptDisplay {
  import opened Wrappers
  import opened Text

  // ---------------------------------------------------------------------
  // The speaker label
  // ---------------------------------------------------------------------

  /** `\d+:` at the start of `u`: one or more ASCII digits, then a colon. */
  predicate DigitsThenColon(u: string)
    decreases |u|
  {
    |u| >= 2 && IsDigit(u[0]) && (u[1] == ':' || DigitsThenColon(u[1..]))
  }

  /** The lookahead `(?=Speaker \d+:)` succeeds at the start of `t`. */
  predicate LabelAt(t: string) {
    |t| >= 8 && t[..8] == "Speaker " && DigitsThenColon(t[8..])
  }

  /** Length of the run of digits at the start of `u`. */
  function DigitRun(u: string): (n: nat)
    ensures n <= |u| && AllDigits(u[..n])
    ensures n < |u| ==> !IsDigit(u[n])
  {
    if |u| == 0 || !IsDigit(u[0]) then 0
    else
      var n := DigitRun(u[1..]);
      assert u[..n + 1] == [u[0]] + u[1..][..n];
      n + 1
  }

  /** A run of digits followed by a non-digit is exactly the leading digit run. */
  lemma {:induction false} DigitRunOfNumber(d: string, rest: string)
    requires AllDigits(d) && rest != [] && !IsDigit(rest[0])
    ensures DigitRun(d + rest) == |d|
    decreases |d|
  {
    if |d| > 0 {
      assert (d + rest)[1..] == d[1..] + rest;
      DigitRunOfNumber(d[1..], rest);
    }
  }

  /** `\d+:` holds exactly when the leading digit run is non-empty and a colon ends it. */
  lemma {:induction false} DigitsThenColonRun(u: string)
    ensures DigitsThenColon(u) <==> 1 <= DigitRun(u) < |u| && u[DigitRun(u)] == ':'
    decreases |u|
  {
    if |u| >= 2 && IsDigit(u[0]) {
      DigitsThenColonRun(u[1..]);
    }
  }

  /** The label only looks at a prefix, so text appended after it does not undo it. */
  lemma {:induction false} DigitsThenColonExtends(u: string, v: string)
    ensures DigitsThenColon(u) ==> DigitsThenColon(u + v)
    decreases |u|
  {
    if |u| >= 2 {
      assert (u + v)[1..] == u[1..] + v;
      DigitsThenColonExtends(u[1..], v);
    }
  }

  lemma LabelAtExtends(t: string, v: string)
    ensures LabelAt(t) ==> LabelAt(t + v)
  {
    if |t| >= 8 {
      assert (t + v)[..8] == t[..8];
      assert (t + v)[8..] == t[8..] + v;
      DigitsThenColonExtends(t[8..], v);
    }
  }

  // ---------------------------------------------------------------------
  // split(/(?=Speaker \d+:)/)
  // ---------------------------------------------------------------------

  /** The first position at or after `i` where a label starts, or `|s|`. */
  function NextLabel(s: string, i: nat): (r: nat)
    requires i <= |s|
    decreases |s| - i
    ensures i <= r <= |s|
    ensures r < |s| ==> LabelAt(s[r..])
    ensures forall k :: i <= k < r ==> !LabelAt(s[k..])
  {
    if i == |s| then |s| else if LabelAt(s[i..]) then i else NextLabel(s, i + 1)
  }

  /** A label at `c`, and none in `[i, c)`, makes `c` the next label. */
  lemma {:induction false} NextLabelAt(s: string, i: nat, c: nat)
    requires i <= c < |s| && LabelAt(s[c..])
    requires forall k :: i <= k < c ==> !LabelAt(s[k..])
    decreases c - i
    ensures NextLabel(s, i) == c
  {
    if i < c {
      NextLabelAt(s, i + 1, c);
    }
  }

  /** No label in `[i, |s|)` means there is no next label. */
  lemma {:induction false} NextLabelNone(s: string, i: nat)
    requires i <= |s|
    requires forall k :: i <= k < |s| ==> !LabelAt(s[k..])
    decreases |s| - i
    ensures NextLabel(s, i) == |s|
  {
    if i < |s| {
      NextLabelNone(s, i + 1);
    }
  }

  /** A collection of a single piece is that piece's segments. */
  lemma CollectSingle(line: string)
    ensures CollectSegments([line]) == SegmentsOf(line)
  {
    var lines: seq<string> := [line];
    assert lines[..0] == [];
  }

  /**
   * The split keeps a piece before every label start other than one at
   * index 0; a string without labels is its own single piece.
   */
  function SplitAtLabels(s: string): (pieces: seq<string>)
    decreases |s|
    ensures |pieces| >= 1
  {
    if |s| == 0 then [s]
    else
      var c := NextLabel(s, 1);
      if c == |s| then [s] else [s[..c]] + SplitAtLabels(s[c..])
  }

  function Flatten(pieces: seq<string>): string {
    if |pieces| == 0 then [] else pieces[0] + Flatten(pieces[1..])
  }

  /** One step of the split: the piece before the next label, then the split of the rest. */
  lemma SplitStep(s: string)
    requires s != []
    ensures NextLabel(s, 1) == |s| ==> SplitAtLabels(s) == [s]
    ensures NextLabel(s, 1) < |s| ==>
      SplitAtLabels(s) == [s[..NextLabel(s, 1)]] + SplitAtLabels(s[NextLabel(s, 1)..])
  {
  }

  /** A piece cut off the front, followed by pieces that flatten to the rest, flattens to the whole. */
  lemma FlattenCut(s: string, c: nat, rest: seq<string>)
    requires c <= |s| && Flatten(rest) == s[c..]
    ensures Flatten([s[..c]] + rest) == s
  {
    assert ([s[..c]] + rest)[1..] == rest;
    assert s[..c] + s[c..] == s;
  }

  /** The split loses nothing: the pieces concatenate back to the input. */
  lemma {:induction false} SplitFlatten(s: string)
    decreases |s|
    ensures Flatten(SplitAtLabels(s)) == s
  {
    if |s| == 0 {
      FlattenCut(s, 0, []);
    } else {
      var c := NextLabel(s, 1);
      SplitStep(s);
      if c == |s| {
        FlattenCut(s, |s|, []);
      } else {
        SplitFlatten(s[c..]);
        FlattenCut(s, c, SplitAtLabels(s[c..]));
      }
    }
  }

  /** Every piece of a non-empty input is non-empty, and each piece after the first begins where a label starts. */
  lemma {:induction false} SplitCutsAtLabels(s: string)
    requires s != []
    decreases |s|
    ensures var p := SplitAtLabels(s);
      forall i :: 0 <= i < |p| ==> p[i] != [] && (i >= 1 ==> LabelAt(Flatten(p[i..])))
  {
    var p := SplitAtLabels(s);
    var c := NextLabel(s, 1);
    if c < |s| {
      var rest := SplitAtLabels(s[c..]);
      assert p[1..] == rest;
      SplitCutsAtLabels(s[c..]);
      SplitFlatten(s[c..]);
      forall i | 1 <= i < |p|
        ensures LabelAt(Flatten(p[i..]))
      {
        assert p[i..] == rest[i - 1..];
      }
    }
  }

  /** No label starts inside a piece. */
  lemma {:induction false} SplitNoInnerLabel(s: string)
    decreases |s|
    ensures var p := SplitAtLabels(s);
      forall i, k :: 0 <= i < |p| && 1 <= k < |p[i]| ==> !LabelAt(p[i][k..])
  {
    var p := SplitAtLabels(s);
    if |s| > 0 {
      var c := NextLabel(s, 1);
      forall k | 1 <= k < c
        ensures !LabelAt(s[..c][k..])
      {
        LabelAtExtends(s[..c][k..], s[c..]);
        assert s[..c][k..] + s[c..] == s[k..];
      }
      if c < |s| {
        SplitNoInnerLabel(s[c..]);
        assert p[0] == s[..c];
        assert p[1..] == SplitAtLabels(s[c..]);
        forall i, k | 1 <= i < |p| && 1 <= k < |p[i]|
          ensures !LabelAt(p[i][k..])
        {
          assert p[i] == p[1..][i - 1];
        }
      } else {
        assert s[..c] == s;
        assert p == [s];
      }
    }
  }

  // ---------------------------------------------------------------------
  // line.match(/^Speaker (\d+):\s*(.+)/)
  // ---------------------------------------------------------------------

  /** The end of the line containing position `k`: the next line terminator, or the end. */
  function LineEnd(t: string, k: nat): (e: nat)
    requires k <= |t|
    decreases |t| - k
    ensures k <= e <= |t|
    ensures forall j :: k <= j < e ==> !IsLineTerminator(t[j])
    ensures e < |t| ==> IsLineTerminator(t[e])
  {
    if k == |t| || IsLineTerminator(t[k]) then k else LineEnd(t, k + 1)
  }

  /** The last position in `[from, hi)` holding a character that `.` matches. */
  function LastMatchable(t: string, from: nat, hi: nat): (r: Option<nat>)
    requires from <= hi <= |t|
    decreases hi
    ensures r.None? <==> forall j :: from <= j < hi ==> IsLineTerminator(t[j])
    ensures r.Some? ==> from <= r.value < hi && !IsLineTerminator(t[r.value])
  {
    if hi == from then None
    else if !IsLineTerminator(t[hi - 1]) then Some(hi - 1)
    else LastMatchable(t, from, hi - 1)
  }

  /**
   * What `\s*(.+)` captures from position `from`: `\s*` first takes the whole
   * whitespace run and `.+` the rest of that line; when the run reaches the
   * end, `\s*` gives characters back until `.+` can take one.
   */
  function MatchBody(t: string, from: nat): (r: Option<string>)
    requires from <= |t|
    ensures r.None? <==> forall j :: from <= j < |t| ==> IsLineTerminator(t[j])
    ensures r.Some? ==> r.value != [] && forall j :: 0 <= j < |r.value| ==> !IsLineTerminator(r.value[j])
  {
    var q := from + LeadingSpace(JavaScript, t[from..]);
    if q < |t| then
      assert t[q] == t[from..][q - from];
      Some(t[q..LineEnd(t, q)])
    else
      assert forall j :: 0 <= j < |t| - from ==> IsSpace(JavaScript, t[from..][j]);
      assert forall j :: from <= j < |t| ==> t[j] == t[from..][j - from];
      match LastMatchable(t, from, |t|)
      case None => None
      case Some(k) => Some(t[k..LineEnd(t, k)])
  }

  /** The two capture groups: the speaker number as parsed, and the text. */
  datatype LabelMatch = LabelMatch(number: nat, body: string)

  /** `line.match(/^Speaker (\d+):\s*(.+)/)`. */
  function SpeakerMatch(line: string): (r: Option<LabelMatch>)
    ensures r.Some? ==> LabelAt(line) && r.value.body != []
    ensures r.Some? ==> forall j :: 0 <= j < |r.value.body| ==> !IsLineTerminator(r.value.body[j])
    ensures r.Some? ==> r.value.number == DigitsValue(line[8..][..DigitRun(line[8..])])
    ensures LabelAt(line) && r.None? ==>
      forall j :: 9 + DigitRun(line[8..]) <= j < |line| ==> IsLineTerminator(line[j])
  {
    if !LabelAt(line) then None
    else
      DigitsThenColonRun(line[8..]);
      var n := DigitRun(line[8..]);
      match MatchBody(line, 8 + n + 1)
      case None => None
      case Some(body) => Some(LabelMatch(DigitsValue(line[8..][..n]), body))
  }

  // ---------------------------------------------------------------------
  // parseTranscriptWithSpeakers
  // ---------------------------------------------------------------------

  /** A `TranscriptSegment`: trimmed text and the speaker number, `null` when unlabelled. */
  datatype Segment = Segment(text: string, speaker: Option<nat>)

  /** The segment one split piece yields: none for a blank piece. */
  function ParseLine(line: string): (r: Option<Segment>)
    ensures r.None? <==> IsBlank(JavaScript, line)
    ensures r.Some? ==> Strip(JavaScript, r.value.text) == r.value.text
    ensures r.Some? && r.value.speaker.None? ==> r.value.text != []
    ensures r.Some? && r.value.speaker.Some? ==> LabelAt(line)
  {
    if Strip(JavaScript, line) == [] then None
    else
      match SpeakerMatch(line)
      case Some(m) =>
        StripOfStripped(JavaScript, m.body);
        Some(Segment(Strip(JavaScript, m.body), Some(m.number)))
      case None =>
        StripOfStripped(JavaScript, line);
        Some(Segment(Strip(JavaScript, line), None))
  }

  /** The line containing position `k` ends at the same place when text is put in front. */
  lemma {:induction false} LineEndShift(a: string, s: string, k: nat)
    requires k <= |s|
    decreases |s| - k
    ensures LineEnd(a + s, |a| + k) == |a| + LineEnd(s, k)
  {
    if k < |s| {
      assert (a + s)[|a| + k] == s[k];
      if !IsLineTerminator(s[k]) {
        LineEndShift(a, s, k + 1);
      }
    }
  }

  /** `Speaker <d>:` opens a label whose digit run is exactly `d`. */
  lemma LabelOfDigits(d: string, w: string, s: string)
    requires d != [] && AllDigits(d)
    ensures var line := "Speaker " + d + ":" + w + s;
      LabelAt(line) && DigitRun(line[8..]) == |d| && line[8..][..|d|] == d
  {
    var line := "Speaker " + d + ":" + w + s;
    var u := line[8..];
    assert u == d + (":" + w + s);
    DigitRunOfNumber(d, ":" + w + s);
    DigitsThenColonRun(u);
    assert line[..8] == "Speaker ";
  }

  /** After whitespace `w`, `\s*(.+)` captures the first line of a text that starts visibly. */
  lemma BodyAfterSpace(head: string, w: string, s: string)
    requires IsBlank(JavaScript, w) && s != [] && !IsSpace(JavaScript, s[0])
    ensures MatchBody(head + w + s, |head|) == Some(s[..LineEnd(s, 0)])
  {
    AfterHead(head, w, s);
    LeadingAfterBlank(JavaScript, w, s, "");
    MatchBodyVisible(head + w + s, |head|, |head| + |w|);
  }

  /** What follows `head` in `head + w + s`, and the line that starts at `s`. */
  lemma AfterHead(head: string, w: string, s: string)
    ensures var t := head + w + s;
      && t[|head|..] == w + s + ""
      && t[|head| + |w|..LineEnd(t, |head| + |w|)] == s[..LineEnd(s, 0)]
  {
    var a := head + w;
    assert head + w + s == a + s;
    assert (head + w + s)[|head|..] == w + s + "";
    LineEndShift(a, s, 0);
    SliceAfter(a, s, LineEnd(s, 0));
  }

  /** The first `e` characters after `a` in `a + s` are the first `e` of `s`. */
  lemma SliceAfter(a: string, s: string, e: nat)
    requires e <= |s|
    ensures (a + s)[|a|..|a| + e] == s[..e]
  {
  }

  /** When `\s*` stops before the end, `.+` takes the rest of that line. */
  lemma MatchBodyVisible(t: string, from: nat, q: nat)
    requires from <= |t| && q == from + LeadingSpace(JavaScript, t[from..]) && q < |t|
    ensures MatchBody(t, from) == Some(t[q..LineEnd(t, q)])
  {
  }

  /**
   * A labelled piece `Speaker <d>:<w><s>`, where `w` is whitespace and `s`
   * starts with a character `\s` does not match, matches with the value of
   * the digits and the first line of `s`.
   */
  lemma LabelledMatch(d: string, w: string, s: string)
    requires d != [] && AllDigits(d)
    requires IsBlank(JavaScript, w) && s != [] && !IsSpace(JavaScript, s[0])
    ensures SpeakerMatch("Speaker " + d + ":" + w + s) == Some(LabelMatch(DigitsValue(d), s[..LineEnd(s, 0)]))
  {
    LabelOfDigits(d, w, s);
    BodyAfterSpace("Speaker " + d + ":", w, s);
  }

  /** A labelled piece yields the digits' value as speaker and its first line after the label, trimmed, as text. */
  lemma LabelledPiece(d: string, w: string, s: string)
    requires d != [] && AllDigits(d)
    requires IsBlank(JavaScript, w) && s != [] && !IsSpace(JavaScript, s[0])
    ensures ParseLine("Speaker " + d + ":" + w + s) ==
            Some(Segment(Strip(JavaScript, s[..LineEnd(s, 0)]), Some(DigitsValue(d))))
  {
    var line := "Speaker " + d + ":" + w + s;
    assert !IsSpace(JavaScript, line[0]);
    LabelledMatch(d, w, s);
  }

  /** A non-blank piece that does not start with a label yields its trimmed self, without speaker. */
  lemma UnlabelledPiece(p: string)
    requires !LabelAt(p) && !IsBlank(JavaScript, p)
    ensures ParseLine(p) == Some(Segment(Strip(JavaScript, p), None))
  {
  }

  function SegmentsOf(line: string): seq<Segment> {
    match ParseLine(line)
    case None => []
    case Some(seg) => [seg]
  }

  /** The segments of the pieces, in order. */
  function CollectSegments(lines: seq<string>): (r: seq<Segment>)
    ensures |r| <= |lines|
  {
    if |lines| == 0 then [] else CollectSegments(lines[..|lines| - 1]) + SegmentsOf(lines[|lines| - 1])
  }

  /** The segments of a whole transcript: none for the empty string. */
  function Segments(transcript: string): seq<Segment> {
    if transcript == [] then [] else CollectSegments(SplitAtLabels(transcript))
  }

  /** `parseTranscriptWithSpeakers`: one pass over the split pieces, pushing a segment per non-blank piece. */
  method ParseTranscriptWithSpeakers(transcript: string) returns (segments: seq<Segment>)
    ensures segments == Segments(transcript)
  {
    if transcript == [] {
      return [];
    }
    segments := [];
    var lines := SplitAtLabels(transcript);
    var i := 0;
    while i < |lines|
      invariant 0 <= i <= |lines|
      invariant segments == CollectSegments(lines[..i])
    {
      var line := lines[i];
      assert lines[..i + 1][..i] == lines[..i];
      assert CollectSegments(lines[..i + 1]) == CollectSegments(lines[..i]) + SegmentsOf(line);
      if Strip(JavaScript, line) != [] {
        var m := SpeakerMatch(line);
        if m.Some? {
          assert SegmentsOf(line) == [Segment(Strip(JavaScript, m.value.body), Some(m.value.number))];
          segments := segments + [Segment(Strip(JavaScript, m.value.body), Some(m.value.number))];
        } else {
          assert SegmentsOf(line) == [Segment(Strip(JavaScript, line), None)];
          segments := segments + [Segment(Strip(JavaScript, line), None)];
        }
      } else {
        assert SegmentsOf(line) == [];
      }
      i := i + 1;
    }
    assert lines[..i] == lines;
  }

  /** Every segment's text is trimmed, and unlabelled segments are never empty. */
  lemma {:induction false} SegmentsTrimmed(lines: seq<string>)
    ensures forall i :: 0 <= i < |CollectSegments(lines)| ==>
      var seg := CollectSegments(lines)[i];
      Strip(JavaScript, seg.text) == seg.text && (seg.speaker.None? ==> seg.text != [])
  {
    if |lines| > 0 {
      SegmentsTrimmed(lines[..|lines| - 1]);
      var _ := ParseLine(lines[|lines| - 1]);
    }
  }

  /** A non-blank transcript without any label is one unlabelled, trimmed segment. */
  lemma UnlabelledTranscript(t: string)
    requires !IsBlank(JavaScript, t)
    requires forall k :: 0 <= k < |t| ==> !LabelAt(t[k..])
    ensures Segments(t) == [Segment(Strip(JavaScript, t), None)]
  {
    assert t[0..] == t;
    assert SpeakerMatch(t) == None;
    assert ParseLine(t) == Some(Segment(Strip(JavaScript, t), None));
    var c := NextLabel(t, 1);
    assert c == |t|;
    assert SplitAtLabels(t) == [t];
    assert [t][..0] == [];
    assert CollectSegments([t]) == CollectSegments([]) + SegmentsOf(t);
  }

  /** A label followed by nothing but two spaces. */
  const BlankLabelled: string := "Speaker 1:  "

  lemma BlankLabelledIsOnePiece()
    ensures LabelAt(BlankLabelled)
    ensures SplitAtLabels(BlankLabelled) == [BlankLabelled]
  {
    var t := BlankLabelled;
    assert t[..8] == "Speaker ";
    assert t[8..][1] == ':';
    forall k | 1 <= k < |t| ensures !LabelAt(t[k..]) {
      assert t[k..][0] != 'S';
    }
    assert NextLabel(t, 1) == |t|;
  }

  lemma BlankLabelledNumber()
    ensures DigitRun(BlankLabelled[8..]) == 1
    ensures DigitsValue(BlankLabelled[8..][..1]) == 1
  {
    var u := BlankLabelled[8..];
    assert u == "1:  ";
    assert u[1..] == ":  ";
    assert DigitRun(u[1..]) == 0;
    assert u[..1] == "1";
    assert DigitsValue("1") == 1 by {
      assert "1"[..0] == [];
    }
  }

  lemma BlankLabelledBody()
    ensures MatchBody(BlankLabelled, 10) == Some(" ")
  {
    var t := BlankLabelled;
    assert t[10..] == "  ";
    assert LeadingSpace(JavaScript, t[10..]) == 2 by {
      assert t[10..][1..] == " ";
      assert t[10..][2..] == "";
    }
    assert LastMatchable(t, 10, 12) == Some(11);
    assert LineEnd(t, 11) == 12;
    assert t[11..12] == " ";
  }

  lemma BlankLabelledMatch()
    ensures SpeakerMatch(BlankLabelled) == Some(LabelMatch(1, " "))
  {
    BlankLabelledIsOnePiece();
    BlankLabelledNumber();
    BlankLabelledBody();
  }

  lemma BlankLabelledLine()
    ensures ParseLine(BlankLabelled) == Some(Segment("", Some(1)))
  {
    BlankLabelledMatch();
    assert IsBlank(JavaScript, " ");
    assert !IsSpace(JavaScript, BlankLabelled[0]);
    assert !IsBlank(JavaScript, BlankLabelled);
  }

  /** A label followed only by spaces still matches (`\s*` gives one back to `.+`), giving an empty labelled segment. */
  lemma LabelWithBlankText()
    ensures Segments(BlankLabelled) == [Segment("", Some(1))]
  {
    var t := BlankLabelled;
    BlankLabelledIsOnePiece();
    BlankLabelledLine();
    var pieces: seq<string> := [t];
    assert pieces[..0] == [];
    assert CollectSegments(pieces) == CollectSegments([]) + SegmentsOf(t);
  }

  // ---------------------------------------------------------------------
  // getSpeakerColor
  // ---------------------------------------------------------------------

  const UnlabelledColor := "#666"
  const SpeakerColors: seq<string> := ["#2563eb", "#dc2626", "#16a34a", "#ca8a04", "#9333ea", "#c2410c"]

  /** JavaScript's `x % 6`: the remainder takes the sign of the dividend. */
  function JsRemainder6(a: int): (r: int)
    ensures a >= 0 ==> r == a % 6
    ensures a < 0 ==> -6 < r <= 0
    ensures r == 0 <==> a % 6 == 0
    ensures (a - r) % 6 == 0
  {
    if a >= 0 then a % 6 else -((-a) % 6)
  }

  /**
   * `getSpeakerColor`: grey without a speaker (null or 0), otherwise the
   * colour at index `(speaker - 1) % 6`; a negative index reads `undefined`
   * (None), except `-0`, which reads the first colour.
   */
  function GetSpeakerColor(speaker: Option<int>): (r: Option<string>)
    ensures speaker.None? || speaker == Some(0) ==> r == Some(UnlabelledColor)
    ensures speaker.Some? && speaker.value >= 1 ==> r == Some(SpeakerColors[(speaker.value - 1) % 6])
  {
    if speaker.None? || speaker.value == 0 then Some(UnlabelledColor)
    else
      var index := JsRemainder6(speaker.value - 1);
      if index >= 0 then Some(SpeakerColors[index]) else None
  }

  /** Colours repeat every six speakers, and speakers 1 to 6 all get different ones. */
  lemma ColorCycle(n: int)
    requires n >= 1
    ensures GetSpeakerColor(Some(n + 6)) == GetSpeakerColor(Some(n))
    ensures forall a, b :: 1 <= a < b <= 6 ==> GetSpeakerColor(Some(a)) != GetSpeakerColor(Some(b))
  {
  }

  /** A negative speaker number reads past the palette unless `speaker - 1` is a multiple of six. */
  lemma NegativeSpeakerColor(n: int)
    requires n < 0
    ensures GetSpeakerColor(Some(n)).Some? <==> (n - 1) % 6 == 0
    ensures (n - 1) % 6 == 0 ==> GetSpeakerColor(Some(n)) == Some(SpeakerColors[0])
  {
  }
}
