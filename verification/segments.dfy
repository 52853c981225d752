/** The records the speech engine produces for one pass over the audio. */
module Segments {
  import opened Base

  /** One word with its timing (`faster_whisper.transcribe.Word`). */
  datatype Word = Word(start: real, end: real, word: string, probability: real)

  /** One recognised span (`faster_whisper.transcribe.Segment`). `words` is
      present only when word-level timing was requested. */
  datatype Segment = Segment(
    id: int,
    seek: int,
    start: real,
    end: real,
    text: string,
    tokens: seq<int>,
    temperature: real,
    avgLogprob: real,
    compressionRatio: real,
    noSpeechProb: real,
    words: Option<seq<Word>>)
}
