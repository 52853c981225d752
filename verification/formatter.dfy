/** Rendering of a segment sequence as plain text, one-line-per-segment
    text, SubRip (SRT) or WebVTT (`format_segments`, `write_srt`,
    `write_vtt` in src/predict.py). */
module Formatter {
  import opened Text
  import opened Segments

  /** `format_timestamp(seconds, always_include_hours, decimal_marker)` from
      the engine's utilities; its body is not part of this model, so every
      renderer takes it as a parameter. */
  type TimestampFormat = (real, bool, string) -> string

  /** The text of a cue: stripped, with `-->` written as `->`. */
  function CueText(s: Segment): string {
    EscapeArrows(Strip(s.text))
  }

  /** What a subtitle writer reads from a segment: its times and cue text. */
  datatype Cue = Cue(start: real, end: real, text: string)

  function ToCue(s: Segment): Cue {
    Cue(s.start, s.end, CueText(s))
  }

  function Cues(segs: seq<Segment>): (cs: seq<Cue>)
    ensures |cs| == |segs|
  {
    seq(|segs|, i requires 0 <= i < |segs| => ToCue(segs[i]))
  }

  /** VTT timing line: default `format_timestamp` (hours only when non-zero, `.` marker). */
  function VttTiming(start: real, end: real, ts: TimestampFormat): string {
    ts(start, false, ".") + " --> " + ts(end, false, ".")
  }

  /** SRT timing line: hours always shown, `,` decimal marker. */
  function SrtTiming(start: real, end: real, ts: TimestampFormat): string {
    ts(start, true, ",") + " --> " + ts(end, true, ",")
  }

  // ---------------------------------------------------------------------
  // The `lines` lists of the two subtitle writers

  /** The lines appended by a loop that emits one block per item, the item
      at position `k` numbered `first + k`. */
  function Blocks<T>(xs: seq<T>, first: nat, block: (nat, T) -> seq<string>): seq<string>
  {
    if |xs| == 0 then [] else block(first, xs[0]) + Blocks(xs[1..], first + 1, block)
  }

  /** With blocks of a fixed width `w`, line `w * k + j` is line `j` of the
      block of item `k`. */
  lemma {:induction false} BlockAt<T>(xs: seq<T>, first: nat, block: (nat, T) -> seq<string>, w: nat, k: nat, j: nat)
    requires forall i, x :: |block(i, x)| == w
    requires k < |xs| && j < w
    ensures w * k + j < |Blocks(xs, first, block)|
    ensures Blocks(xs, first, block)[w * k + j] == block(first + k, xs[k])[j]
    decreases k
  {
    var b := block(first, xs[0]);
    var rest := Blocks(xs[1..], first + 1, block);
    assert Blocks(xs, first, block) == b + rest;
    if k > 0 {
      BlockAt(xs[1..], first + 1, block, w, k - 1, j);
      assert w * k + j == w * (k - 1) + j + w;
      assert xs[1..][k - 1] == xs[k];
    }
  }

  /** With blocks of a fixed width `w`, there are `w` lines per item. */
  lemma {:induction false} BlocksLength<T>(xs: seq<T>, first: nat, block: (nat, T) -> seq<string>, w: nat)
    requires forall i, x :: |block(i, x)| == w
    ensures |Blocks(xs, first, block)| == w * |xs|
    decreases |xs|
  {
    if |xs| > 0 {
      BlocksLength(xs[1..], first + 1, block, w);
      assert w * |xs| == w + w * (|xs| - 1);
    }
  }

  /** Lines of one VTT cue: timing, text, blank. */
  function VttBlock(c: Cue, ts: TimestampFormat): seq<string> {
    [VttTiming(c.start, c.end, ts), c.text, ""]
  }

  /** Lines of one SRT cue numbered `n`: number, timing, text, blank. */
  function SrtBlock(n: nat, c: Cue, ts: TimestampFormat): seq<string> {
    [NatToString(n), SrtTiming(c.start, c.end, ts), c.text, ""]
  }

  function VttCueLines(cues: seq<Cue>, ts: TimestampFormat): seq<string> {
    Blocks(cues, 0, (i: nat, c: Cue) => VttBlock(c, ts))
  }

  /** `enumerate(transcript, start=1)`: SRT numbering starts at 1. */
  function SrtCueLines(cues: seq<Cue>, ts: TimestampFormat): seq<string> {
    Blocks(cues, 1, (i: nat, c: Cue) => SrtBlock(i, c, ts))
  }

  /** The `lines` list `write_vtt` builds. */
  function VttLines(segs: seq<Segment>, ts: TimestampFormat): seq<string> {
    VttCueLines(Cues(segs), ts)
  }

  /** The `lines` list `write_srt` builds. */
  function SrtLines(segs: seq<Segment>, ts: TimestampFormat): seq<string> {
    SrtCueLines(Cues(segs), ts)
  }

  lemma {:induction false} CueVttLineAt(cues: seq<Cue>, ts: TimestampFormat, k: nat)
    requires k < |cues|
    ensures |VttCueLines(cues, ts)| == 3 * |cues|
    ensures VttCueLines(cues, ts)[3 * k] == VttTiming(cues[k].start, cues[k].end, ts)
    ensures VttCueLines(cues, ts)[3 * k + 1] == cues[k].text
    ensures VttCueLines(cues, ts)[3 * k + 2] == ""
  {
    var f := (i: nat, c: Cue) => VttBlock(c, ts);
    BlocksLength(cues, 0, f, 3);
    BlockAt(cues, 0, f, 3, k, 0);
    BlockAt(cues, 0, f, 3, k, 1);
    BlockAt(cues, 0, f, 3, k, 2);
  }

  lemma {:induction false} CueSrtLineAt(cues: seq<Cue>, ts: TimestampFormat, k: nat)
    requires k < |cues|
    ensures |SrtCueLines(cues, ts)| == 4 * |cues|
    ensures SrtCueLines(cues, ts)[4 * k] == NatToString(k + 1)
    ensures SrtCueLines(cues, ts)[4 * k + 1] == SrtTiming(cues[k].start, cues[k].end, ts)
    ensures SrtCueLines(cues, ts)[4 * k + 2] == cues[k].text
    ensures SrtCueLines(cues, ts)[4 * k + 3] == ""
  {
    var f := (i: nat, c: Cue) => SrtBlock(i, c, ts);
    BlocksLength(cues, 1, f, 4);
    BlockAt(cues, 1, f, 4, k, 0);
    BlockAt(cues, 1, f, 4, k, 1);
    BlockAt(cues, 1, f, 4, k, 2);
    BlockAt(cues, 1, f, 4, k, 3);
  }

  /** A VTT document has three lines per segment; segment `k` owns lines
      `3k`, `3k+1`, `3k+2`: its timing line, its cue text and a blank line. */
  lemma {:induction false} VttLineAt(segs: seq<Segment>, ts: TimestampFormat, k: nat)
    requires k < |segs|
    ensures |VttLines(segs, ts)| == 3 * |segs|
    ensures VttLines(segs, ts)[3 * k] == VttTiming(segs[k].start, segs[k].end, ts)
    ensures VttLines(segs, ts)[3 * k + 1] == CueText(segs[k])
    ensures VttLines(segs, ts)[3 * k + 2] == ""
  {
    CueVttLineAt(Cues(segs), ts, k);
  }

  /** An SRT document has four lines per segment; segment `k` (counting
      from 0) owns lines `4k` to `4k+3`: the number `k + 1`, whatever its
      `id`, its timing line, its cue text and a blank line. */
  lemma {:induction false} SrtLineAt(segs: seq<Segment>, ts: TimestampFormat, k: nat)
    requires k < |segs|
    ensures |SrtLines(segs, ts)| == 4 * |segs|
    ensures SrtLines(segs, ts)[4 * k] == NatToString(k + 1)
    ensures SrtLines(segs, ts)[4 * k + 1] == SrtTiming(segs[k].start, segs[k].end, ts)
    ensures SrtLines(segs, ts)[4 * k + 2] == CueText(segs[k])
    ensures SrtLines(segs, ts)[4 * k + 3] == ""
  {
    CueSrtLineAt(Cues(segs), ts, k);
  }

  /** SRT output depends on each segment's start, end and text only, never
      on its `id` or other fields. */
  lemma {:induction false} SrtIgnoresIds(a: seq<Segment>, b: seq<Segment>, ts: TimestampFormat)
    requires |a| == |b|
    requires forall i :: 0 <= i < |a| ==> a[i].start == b[i].start && a[i].end == b[i].end && a[i].text == b[i].text
    ensures WriteSrt(a, ts) == WriteSrt(b, ts)
  {
    assert Cues(a) == Cues(b);
  }

  // ---------------------------------------------------------------------
  // The rendered documents

  function WriteVtt(segs: seq<Segment>, ts: TimestampFormat): string {
    Join(VttLines(segs, ts), '\n')
  }

  function WriteSrt(segs: seq<Segment>, ts: TimestampFormat): string {
    Join(SrtLines(segs, ts), '\n')
  }

  /** The left-stripped segment texts the two text renderings join. */
  function Pieces(segs: seq<Segment>): (ps: seq<string>)
    ensures |ps| == |segs|
  {
    seq(|segs|, i requires 0 <= i < |segs| => LStrip(segs[i].text))
  }

  /** The `plain_text` rendering: one continuous line. */
  function PlainText(segs: seq<Segment>): string {
    Join(Pieces(segs), ' ')
  }

  /** The `formatted_text` rendering: one segment per line. */
  function FormattedText(segs: seq<Segment>): string {
    Join(Pieces(segs), '\n')
  }

  /** `format_segments`: the rendering a format name selects; every name
      other than the three recognised ones renders WebVTT. */
  function FormatSegments(format: string, segs: seq<Segment>, ts: TimestampFormat): (r: string)
    ensures format == "plain_text" ==> r == PlainText(segs)
    ensures format == "formatted_text" ==> r == FormattedText(segs)
    ensures format == "srt" ==> r == WriteSrt(segs, ts)
    ensures format !in {"plain_text", "formatted_text", "srt"} ==> r == WriteVtt(segs, ts)
  {
    if format == "plain_text" then PlainText(segs)
    else if format == "formatted_text" then FormattedText(segs)
    else if format == "srt" then WriteSrt(segs, ts)
    else WriteVtt(segs, ts)
  }

  /** Splitting an SRT document at line breaks recovers its four lines per
      cue, numbered 1, 2, ... without gaps, provided no timing line or cue
      text itself holds a line break. */
  lemma {:induction false} CueSrtDocumentLines(cues: seq<Cue>, ts: TimestampFormat)
    requires |cues| > 0
    requires forall k :: 0 <= k < |cues| ==>
               '\n' !in SrtTiming(cues[k].start, cues[k].end, ts) && '\n' !in cues[k].text
    ensures Split(Join(SrtCueLines(cues, ts), '\n'), '\n') == SrtCueLines(cues, ts)
  {
    var lines := SrtCueLines(cues, ts);
    var f := (i: nat, c: Cue) => SrtBlock(i, c, ts);
    BlocksLength(cues, 1, f, 4);
    forall i | 0 <= i < |lines|
      ensures '\n' !in lines[i]
    {
      var k, j := i / 4, i % 4;
      BlockAt(cues, 1, f, 4, k, j);
      assert 4 * k + j == i;
      assert !IsDigit('\n');
    }
    SplitJoin(lines, '\n');
  }

  lemma {:induction false} CueVttDocumentLines(cues: seq<Cue>, ts: TimestampFormat)
    requires |cues| > 0
    requires forall k :: 0 <= k < |cues| ==>
               '\n' !in VttTiming(cues[k].start, cues[k].end, ts) && '\n' !in cues[k].text
    ensures Split(Join(VttCueLines(cues, ts), '\n'), '\n') == VttCueLines(cues, ts)
  {
    var lines := VttCueLines(cues, ts);
    var f := (i: nat, c: Cue) => VttBlock(c, ts);
    BlocksLength(cues, 0, f, 3);
    forall i | 0 <= i < |lines|
      ensures '\n' !in lines[i]
    {
      var k, j := i / 3, i % 3;
      BlockAt(cues, 0, f, 3, k, j);
      assert 3 * k + j == i;
    }
    SplitJoin(lines, '\n');
  }

  /** For one or more segments, splitting a rendered SRT document at line
      breaks gives back exactly the lines `write_srt` emitted: four per
      segment, the `k`-th block opening with the number `k + 1`, provided no
      timing line or cue text holds a line break. With no segments the
      document is empty; see EmptyTranscript. */
  lemma {:induction false} SrtDocumentLines(segs: seq<Segment>, ts: TimestampFormat)
    requires |segs| > 0
    requires forall k :: 0 <= k < |segs| ==>
               '\n' !in SrtTiming(segs[k].start, segs[k].end, ts) && '\n' !in CueText(segs[k])
    ensures Split(FormatSegments("srt", segs, ts), '\n') == SrtLines(segs, ts)
    ensures |SrtLines(segs, ts)| == 4 * |segs|
  {
    CueSrtDocumentLines(Cues(segs), ts);
    CueSrtLineAt(Cues(segs), ts, 0);
  }

  /** For one or more segments, splitting a rendered VTT document at line
      breaks gives back exactly the lines `write_vtt` emitted, three per
      segment, provided no timing line or cue text holds a line break. */
  lemma {:induction false} VttDocumentLines(segs: seq<Segment>, ts: TimestampFormat)
    requires |segs| > 0
    requires forall k :: 0 <= k < |segs| ==>
               '\n' !in VttTiming(segs[k].start, segs[k].end, ts) && '\n' !in CueText(segs[k])
    ensures Split(FormatSegments("vtt", segs, ts), '\n') == VttLines(segs, ts)
    ensures |VttLines(segs, ts)| == 3 * |segs|
  {
    CueVttDocumentLines(Cues(segs), ts);
    CueVttLineAt(Cues(segs), ts, 0);
  }

  /** `plain_text` and `formatted_text` carry the same characters: the two
      renderings have equal length and differ only where one has the space
      and the other the line break that separates two segments. */
  lemma {:induction false} PlainAndFormattedAgree(segs: seq<Segment>, ts: TimestampFormat)
    ensures var plain := FormatSegments("plain_text", segs, ts);
            var formatted := FormatSegments("formatted_text", segs, ts);
      && |plain| == |formatted|
      && forall i :: 0 <= i < |plain| ==>
           plain[i] == formatted[i] || (plain[i] == ' ' && formatted[i] == '\n')
  {
    JoinSeparatorSwap(Pieces(segs), ' ', '\n');
  }

  /** `formatted_text` puts one segment per line: for one or more
      segments, splitting it at line breaks gives the left-stripped segment
      texts back when none of them holds a line break. */
  lemma {:induction false} FormattedTextLines(segs: seq<Segment>, ts: TimestampFormat)
    requires |segs| > 0
    requires forall k :: 0 <= k < |segs| ==> '\n' !in LStrip(segs[k].text)
    ensures Split(FormatSegments("formatted_text", segs, ts), '\n') == Pieces(segs)
  {
    SplitJoin(Pieces(segs), '\n');
  }

  /** A transcript without segments (a silent recording, or one the voice
      filter drops entirely) renders as the empty string in every format,
      and splitting that gives one empty line rather than no lines. */
  lemma {:induction false} EmptyTranscript(format: string, ts: TimestampFormat)
    ensures FormatSegments(format, [], ts) == ""
    ensures Split(FormatSegments(format, [], ts), '\n') == [""]
    ensures SrtLines([], ts) == [] && VttLines([], ts) == [] && Pieces([]) == []
  {
  }

  lemma {:induction false} HelloWorldStripped()
    ensures LStrip(" Hello") == "Hello" && LStrip(" world") == "world"
  {
    assert " Hello"[1..] == "Hello" && " world"[1..] == "world";
    assert !IsSpace('H') && !IsSpace('w');
    assert LeadingSpaces("Hello") == 0 && LeadingSpaces("world") == 0;
  }

  /** Two segments " Hello" and " world" render as `Hello world` and as
      `Hello`, a line break, `world`. */
  lemma {:induction false} HelloWorldText(a: Segment, b: Segment)
    requires a.text == " Hello" && b.text == " world"
    ensures PlainText([a, b]) == "Hello" + " " + "world"
    ensures FormattedText([a, b]) == "Hello" + "\n" + "world"
  {
    HelloWorldStripped();
    var ps := Pieces([a, b]);
    assert ps == ["Hello", "world"];
    assert ps[1..] == ["world"];
    assert Join(ps, ' ') == "Hello" + [' '] + Join(["world"], ' ');
    assert Join(ps, '\n') == "Hello" + ['\n'] + Join(["world"], '\n');
  }
}
