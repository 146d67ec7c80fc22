/** The CPU fallback of `/generate`: canned text that is split, truncated and joined. */
module Fallback {
  import opened Numbers
  import opened Text

  /** The words the answer puts around the prompt, with single spaces between them. */
  const PREFIX := ["[CPU", "Fallback]"]
  const SUFFIX := ["\U{2192}", "Aperture", "AI", "is", "a", "GPU-orchestrated", "LLM", "inference", "platform", "built",
                   "on", "vLLM", "and", "Kubernetes."]

  /** The untruncated answer. */
  function FullText(prompt: string): string {
    Join(PREFIX) + " " + prompt + " " + Join(SUFFIX)
  }

  const MARKER := "[CPU Fallback] "

  /** After the marker the prompt stands as it is, then a space and the fixed sentence. */
  predicate Quotes(text: string, prompt: string) {
    var (n, m) := (|MARKER|, |prompt|);
    && |text| > n + m && text[..n] == MARKER && text[n..n + m] == prompt
    && text[n + m] == ' ' && text[n + m + 1..] == Join(SUFFIX)
  }

  lemma FullTextQuotes(prompt: string)
    ensures Quotes(FullText(prompt), prompt)
  {
    MarkerText();
    QuotesBetween(Join(PREFIX) + " ", prompt, Join(SUFFIX));
    assert FullText(prompt) == MARKER + prompt + " " + Join(SUFFIX);
  }

  lemma MarkerText()
    ensures Join(PREFIX) + " " == MARKER
  {
    assert PREFIX[1..] == ["Fallback]"];
  }

  lemma QuotesBetween(a: string, b: string, c: string)
    ensures var text := a + b + " " + c;
            && |text| == |a| + |b| + 1 + |c| && text[..|a|] == a && text[|a|..|a| + |b|] == b
            && text[|a| + |b|] == ' ' && text[|a| + |b| + 1..] == c
  {
  }

  /** What a request is charged: a token for each of the 16 fixed words and for each word of the prompt, up to its
      reservation. */
  function Charge(prompt: string, maxTokens: nat): nat {
    Min(maxTokens, 16 + |Words(prompt)|)
  }

  /** At most `maxTokens` words are kept, and the text is rebuilt only when something was cut. */
  method Generate(prompt: string, maxTokens: nat) returns (text: string, tokens: nat)
    ensures tokens == Charge(prompt, maxTokens) == Min(maxTokens, |Words(FullText(prompt))|)
    ensures |Words(text)| == tokens && Words(text) == Words(FullText(prompt))[..tokens]
    ensures 16 + |Words(prompt)| <= maxTokens ==> text == FullText(prompt) && Quotes(text, prompt)
  {
    FullWords(prompt);
    FullTextQuotes(prompt);
    text := FullText(prompt);
    var words := Words(text);
    if |words| > maxTokens {
      WordsAreWords(text);
      words := words[..maxTokens];
      SplitJoin(words);
      text := Join(words);
    }
    tokens := |words|;
  }

  /** The answer always holds 16 words besides those of the prompt: two before it and fourteen after. */
  lemma FullWords(prompt: string)
    ensures Words(FullText(prompt)) == PREFIX + Words(prompt) + SUFFIX
    ensures |Words(FullText(prompt))| == 16 + |Words(prompt)|
  {
    FixedWords();
    SplitFramed(PREFIX, prompt, SUFFIX);
  }

  lemma FixedWords()
    ensures forall i :: 0 <= i < |PREFIX| ==> IsWord(PREFIX[i])
    ensures forall i :: 0 <= i < |SUFFIX| ==> IsWord(SUFFIX[i])
  {
  }

  lemma SplitFramed(before: seq<string>, prompt: string, after: seq<string>)
    requires forall i :: 0 <= i < |before| ==> IsWord(before[i])
    requires forall i :: 0 <= i < |after| ==> IsWord(after[i])
    ensures Words(Join(before) + " " + prompt + " " + Join(after)) == before + Words(prompt) + after
  {
    SplitJoin(before);
    SplitJoin(after);
    SplitAtSpace(Join(before), ' ', prompt);
    SplitAtSpace(Join(before) + " " + prompt, ' ', Join(after));
  }
}
