/** The basic prompt metrics (api/internal/services/prompt_analyzer.go):
    size in bytes, words, lines and the distinct punctuation and symbol
    characters that the quick analysis reports to the model. A Go string is
    UTF-8 bytes; the prompt is modelled as its sequence of code points and
    the byte length is computed from their UTF-8 encoding. */
module PromptAnalyzer {
  import opened Text
  import opened Seqs

  datatype PromptMetrics = PromptMetrics(characters: nat, words: nat, lines: nat, specialChars: seq<string>)

  /** The number of bytes UTF-8 uses for one code point. */
  function Utf8Length(c: char): (n: nat)
    ensures 1 <= n <= 4
    ensures n == 1 <==> c as int < 0x80
  {
    if c as int < 0x80 then 1 else if c as int < 0x800 then 2 else if c as int < 0x1_0000 then 3 else 4
  }

  /** `len(s)`: the byte length of the UTF-8 encoding. */
  function ByteLength(s: string): (n: nat)
    ensures |s| <= n <= 4 * |s|
  {
    if s == [] then 0 else ByteLength(s[..|s| - 1]) + Utf8Length(s[|s| - 1])
  }

  /** A text of ASCII characters has as many bytes as characters; any
      other character makes the byte count larger. */
  lemma {:induction false} ByteLengthAscii(s: string)
    ensures ByteLength(s) == |s| <==> forall i :: 0 <= i < |s| ==> s[i] as int < 0x80
  {
    if s != [] {
      var init := s[..|s| - 1];
      ByteLengthAscii(init);
      assert forall i :: 0 <= i < |init| ==> init[i] == s[i];
    }
  }

  /** The characters never reported even if classified as symbols. */
  predicate Excluded(c: char) {
    c == ' ' || c == '\n' || c == '\t'
  }

  /** The distinct characters of `prompt` that are punctuation or symbols
      (the classification `unicode.IsPunct || unicode.IsSymbol` is the
      parameter `special`) and not excluded. */
  function SpecialSet(prompt: string, special: char -> bool): set<char> {
    set c | c in prompt && special(c) && !Excluded(c)
  }

  /** The first loop of `calculateBasicMetrics`: every character that is
      special and not excluded goes into the set. */
  method CollectSpecial(prompt: string, special: char -> bool) returns (found: set<char>)
    ensures found == SpecialSet(prompt, special)
  {
    found := {};
    for i := 0 to |prompt|
      invariant found == SpecialSet(prompt[..i], special)
    {
      assert prompt[..i + 1] == prompt[..i] + [prompt[i]];
      if special(prompt[i]) && !Excluded(prompt[i]) {
        found := found + {prompt[i]};
      }
    }
    assert prompt[..|prompt|] == prompt;
  }

  /** The second loop: each character of the set becomes a one-character
      string, once; the order is the set's iteration order, left open. */
  method ListSpecial(found: set<char>) returns (listed: seq<string>)
    ensures NoDup(listed)
    ensures |listed| == |found|
    ensures forall i :: 0 <= i < |listed| ==> |listed[i]| == 1 && listed[i][0] in found
    ensures forall c :: c in found ==> [c] in listed
  {
    listed := [];
    var left := found;
    while left != {}
      invariant left <= found
      invariant |listed| + |left| == |found|
      invariant NoDup(listed)
      invariant forall i :: 0 <= i < |listed| ==> |listed[i]| == 1 && listed[i][0] in found - left
      invariant forall c :: c in found - left ==> [c] in listed
      decreases |left|
    {
      var c :| c in left;
      assert forall i :: 0 <= i < |listed| ==> listed[i] != [c];
      listed := listed + [[c]];
      left := left - {c};
    }
  }

  /** `calculateBasicMetrics`: byte length, words, lines, and the listed
      special characters, or the single entry "None detected" when there
      are none. */
  method CalculateBasicMetrics(prompt: string, special: char -> bool) returns (m: PromptMetrics)
    ensures m.characters == ByteLength(prompt)
    ensures m.words == WordCount(prompt)
    ensures m.lines == Count(prompt, '\n') + 1
    ensures SpecialSet(prompt, special) == {} ==> m.specialChars == ["None detected"]
    ensures SpecialSet(prompt, special) != {} ==> (
      && NoDup(m.specialChars)
      && |m.specialChars| == |SpecialSet(prompt, special)|
      && (forall i :: 0 <= i < |m.specialChars| ==>
            |m.specialChars[i]| == 1 && m.specialChars[i][0] in SpecialSet(prompt, special))
      && (forall c :: c in SpecialSet(prompt, special) ==> [c] in m.specialChars))
  {
    var lines := Split(prompt, '\n');
    var found := CollectSpecial(prompt, special);
    var listed := ListSpecial(found);
    if listed == [] {
      listed := ["None detected"];
    }
    m := PromptMetrics(ByteLength(prompt), WordCount(prompt), |lines|, listed);
  }

  /** Words are zero exactly for blank prompts, and an empty prompt still
      has one line. */
  lemma MetricsOfBlank(prompt: string)
    ensures WordCount(prompt) == 0 <==> AllSpace(prompt)
    ensures prompt == [] ==> Count(prompt, '\n') + 1 == 1 && ByteLength(prompt) == 0
  {
    WordCountZero(prompt);
  }
}
