/** Projection of engine segments and words into transport records
    (`serialize_segments` and the `word_timestamps` list in src/predict.py). */
module Serializer {
  import opened Base
  import opened Values
  import opened Segments

  /** The ten keys of a serialized segment. */
  const SegmentKeys: set<string> :=
    {"id", "seek", "start", "end", "text", "tokens", "temperature",
     "avg_logprob", "compression_ratio", "no_speech_prob"}

  function IntList(xs: seq<int>): Value {
    List(seq(|xs|, i requires 0 <= i < |xs| => Int(xs[i])))
  }

  /** The dictionary `serialize_segments` builds for one segment. */
  function SegmentRecord(s: Segment): (m: map<string, Value>)
    ensures m.Keys == SegmentKeys
  {
    map[
      "id" := Int(s.id),
      "seek" := Int(s.seek),
      "start" := Real(s.start),
      "end" := Real(s.end),
      "text" := Str(s.text),
      "tokens" := IntList(s.tokens),
      "temperature" := Real(s.temperature),
      "avg_logprob" := Real(s.avgLogprob),
      "compression_ratio" := Real(s.compressionRatio),
      "no_speech_prob" := Real(s.noSpeechProb)
    ]
  }

  /** `serialize_segments`: one record per segment, in segment order. */
  function SerializeSegments(segs: seq<Segment>): (r: seq<Value>)
    ensures |r| == |segs|
    ensures forall i :: 0 <= i < |segs| ==> r[i].Object? && r[i].fields.Keys == SegmentKeys
  {
    seq(|segs|, i requires 0 <= i < |segs| => Object(SegmentRecord(segs[i])))
  }

  // ---------------------------------------------------------------------
  // Reading a serialized segment back

  /** The integers of a list of integer values, if that is what `v` is. */
  function ReadIntList(v: Value): Option<seq<int>> {
    if v.List? && forall i :: 0 <= i < |v.items| ==> v.items[i].Int? then
      Some(seq(|v.items|, i requires 0 <= i < |v.items| && v.items[i].Int? => v.items[i].i))
    else None
  }

  function ReadInt(m: map<string, Value>, key: string): Option<int> {
    if key in m && m[key].Int? then Some(m[key].i) else None
  }

  function ReadReal(m: map<string, Value>, key: string): Option<real> {
    if key in m && m[key].Real? then Some(m[key].r) else None
  }

  /** Rebuilds a segment from its record and the words the record leaves out. */
  function ReadSegment(v: Value, words: Option<seq<Word>>): Option<Segment> {
    if !v.Object? then None
    else
      var m := v.fields;
      var id := ReadInt(m, "id");
      var seek := ReadInt(m, "seek");
      var start := ReadReal(m, "start");
      var end := ReadReal(m, "end");
      var tokens := if "tokens" in m then ReadIntList(m["tokens"]) else None;
      var temperature := ReadReal(m, "temperature");
      var avgLogprob := ReadReal(m, "avg_logprob");
      var compressionRatio := ReadReal(m, "compression_ratio");
      var noSpeechProb := ReadReal(m, "no_speech_prob");
      if && id.Some? && seek.Some? && start.Some? && end.Some?
         && "text" in m && m["text"].Str? && tokens.Some? && temperature.Some?
         && avgLogprob.Some? && compressionRatio.Some? && noSpeechProb.Some?
      then
        Some(Segment(id.value, seek.value, start.value, end.value, m["text"].s, tokens.value,
                     temperature.value, avgLogprob.value, compressionRatio.value,
                     noSpeechProb.value, words))
      else None
  }

  function ReadSegments(vs: seq<Value>, words: seq<Option<seq<Word>>>): Option<seq<Segment>>
    requires |vs| == |words|
  {
    if |vs| == 0 then Some([])
    else
      match (ReadSegment(vs[0], words[0]), ReadSegments(vs[1..], words[1..]))
      case (Some(s), Some(rest)) => Some([s] + rest)
      case _ => None
  }

  function WordsOf(segs: seq<Segment>): (ws: seq<Option<seq<Word>>>)
    ensures |ws| == |segs|
  {
    seq(|segs|, i requires 0 <= i < |segs| => segs[i].words)
  }

  /** Every field of a segment survives serialization unchanged: reading a
      record back, with the words it leaves out, rebuilds the segment. */
  lemma {:induction false} ReadSegmentRecord(s: Segment)
    ensures ReadSegment(Object(SegmentRecord(s)), s.words) == Some(s)
  {
    ReadIntListOf(s.tokens);
  }

  lemma {:induction false} ReadIntListOf(xs: seq<int>)
    ensures ReadIntList(IntList(xs)) == Some(xs)
  {
    var v := IntList(xs);
    assert forall i :: 0 <= i < |v.items| ==> v.items[i] == Int(xs[i]);
    assert ReadIntList(v).value == xs;
  }

  /** Reading a list succeeds when every record reads back. */
  lemma {:induction false} ReadSegmentsEach(vs: seq<Value>, words: seq<Option<seq<Word>>>, segs: seq<Segment>)
    requires |vs| == |words| == |segs|
    requires forall i :: 0 <= i < |vs| ==> ReadSegment(vs[i], words[i]) == Some(segs[i])
    ensures ReadSegments(vs, words) == Some(segs)
    decreases |vs|
  {
    if |vs| > 0 {
      ReadSegmentsEach(vs[1..], words[1..], segs[1..]);
      assert segs == [segs[0]] + segs[1..];
    }
  }

  /** Serialization keeps the segments, their order and every listed field. */
  lemma {:induction false} SerializeRoundTrip(segs: seq<Segment>)
    ensures ReadSegments(SerializeSegments(segs), WordsOf(segs)) == Some(segs)
  {
    var vs := SerializeSegments(segs);
    var ws := WordsOf(segs);
    forall i | 0 <= i < |segs|
      ensures ReadSegment(vs[i], ws[i]) == Some(segs[i])
    {
      ReadSegmentRecord(segs[i]);
    }
    ReadSegmentsEach(vs, ws, segs);
  }

  // ---------------------------------------------------------------------
  // The flattened word list

  function WordCount(s: Segment): nat {
    if s.words.Some? then |s.words.value| else 0
  }

  /** The number of words over all segments. */
  function TotalWords(segs: seq<Segment>): nat {
    if |segs| == 0 then 0 else WordCount(segs[0]) + TotalWords(segs[1..])
  }

  /** `[word for segment in segments for word in segment.words]`: the words
      of every segment in segment order; iterating a segment whose `words`
      is `None` raises, which is the `None` result here. */
  function FlattenWords(segs: seq<Segment>): (r: Option<seq<Word>>)
    ensures r.Some? <==> forall i :: 0 <= i < |segs| ==> segs[i].words.Some?
    ensures r.Some? ==> |r.value| == TotalWords(segs)
  {
    if |segs| == 0 then Some([])
    else if segs[0].words.None? then None
    else
      match FlattenWords(segs[1..])
      case None => None
      case Some(rest) => Some(segs[0].words.value + rest)
  }

  /** Word `j` of segment `k` sits after the words of all earlier segments. */
  lemma {:induction false} FlattenWordsOrder(segs: seq<Segment>, k: nat, j: nat)
    requires FlattenWords(segs).Some?
    requires k < |segs| && segs[k].words.Some? && j < |segs[k].words.value|
    ensures TotalWords(segs[..k]) + j < |FlattenWords(segs).value|
    ensures FlattenWords(segs).value[TotalWords(segs[..k]) + j] == segs[k].words.value[j]
    decreases k
  {
    var ws := segs[0].words.value;
    var rest := FlattenWords(segs[1..]);
    assert FlattenWords(segs).value == ws + rest.value;
    if k > 0 {
      FlattenWordsOrder(segs[1..], k - 1, j);
      assert segs[..k][1..] == segs[1..][..k - 1];
      assert TotalWords(segs[..k]) == |ws| + TotalWords(segs[1..][..k - 1]);
    } else {
      assert TotalWords(segs[..0]) == 0;
    }
  }

  /** One entry of `word_timestamps`: the word, its start and its end. */
  function WordRecord(w: Word): Value {
    Object(map["word" := Str(w.word), "start" := Real(w.start), "end" := Real(w.end)])
  }

  /** The `word_timestamps` list: one record per word of every segment, in order. */
  function WordTimestamps(segs: seq<Segment>): (r: Option<seq<Value>>)
    ensures r.Some? <==> FlattenWords(segs).Some?
    ensures r.Some? ==> |r.value| == TotalWords(segs)
    ensures r.Some? ==> forall i :: 0 <= i < |r.value| ==> r.value[i] == WordRecord(FlattenWords(segs).value[i])
  {
    match FlattenWords(segs)
    case None => None
    case Some(ws) => Some(seq(|ws|, i requires 0 <= i < |ws| => WordRecord(ws[i])))
  }
}
