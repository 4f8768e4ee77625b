/** `summarize_text` of app.py: the input window and the length bounds handed to
    the summarization model. The model (tokenizer and beam search) is the
    parameter `generate`; `None` stands for any exception it raises. */
module Summarizer {
  import opened Wrappers
  import opened PyText

  /** The words of the text kept for the model. */
  const MaxInputWords := 512

  const Unavailable := "Summary unavailable."

  /** The arguments of one call to the model: the input text and the
      `max_length` and `min_length` of the summary. */
  datatype Generation = Generation(input: string, maxLength: nat, minLength: nat)

  /** `max_length`: half the word count clamped to [30, 140] for texts of more
      than 10 words, and 20 otherwise. */
  function TargetLength(wordCount: nat): (maxLen: nat)
    ensures wordCount <= 10 ==> maxLen == 20
    ensures wordCount > 10 ==> 30 <= maxLen <= 140
    ensures wordCount > 10 && 30 <= wordCount / 2 <= 140 ==> maxLen == wordCount / 2
    ensures wordCount > 10 && wordCount / 2 < 30 ==> maxLen == 30
    ensures wordCount / 2 > 140 ==> maxLen == 140
  {
    if wordCount > 10 then Max(30, Min(140, wordCount / 2)) else 20
  }

  /** `min_length`: half of `max_length`, but at least 10. */
  function MinLength(maxLen: nat): (minLen: nat)
    ensures minLen >= 10 && minLen >= maxLen / 2
    ensures minLen == 10 || minLen == maxLen / 2
  {
    Max(10, maxLen / 2)
  }

  /** A longer text never gets a shorter `max_length`. */
  lemma TargetLengthMonotone(a: nat, b: nat)
    requires a <= b
    ensures TargetLength(a) <= TargetLength(b)
  {
  }

  /** The call made for `text`. Its input holds the first 512 words of the text
      and nothing else; its lengths come from the word count of the WHOLE text,
      and the minimum never exceeds the maximum. */
  function GenerationFor(text: string): (g: Generation)
    ensures var words := Split(text);
      Split(g.input) == words[..Min(MaxInputWords, |words|)]
    ensures |Split(g.input)| <= MaxInputWords
    ensures g.maxLength == TargetLength(|Split(text)|)
    ensures g.minLength == MinLength(g.maxLength)
    ensures 10 <= g.minLength <= g.maxLength <= 140
  {
    var words := Split(text);
    var kept := words[..Min(MaxInputWords, |words|)];
    SplitJoin(kept);
    var maxLen := TargetLength(|words|);
    Generation(Join(kept), maxLen, MinLength(maxLen))
  }

  /** The summary is what the model produced for `GenerationFor(text)`, or the
      fixed fallback text when the model failed. */
  function Summarize(text: string, generate: Generation -> Option<string>): (summary: string)
    ensures generate(GenerationFor(text)) == Some(summary)
      || (generate(GenerationFor(text)).None? && summary == Unavailable)
  {
    match generate(GenerationFor(text))
    case Some(decoded) => decoded
    case None => Unavailable
  }
}
