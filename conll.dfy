/** The CoNLL-style output: one line per token, the word padded to column 20 and
    followed by its labels, a blank line before every sentence and a `-DOCSTART-`
    line at the start of every article. */
module Conll {
  import opened PyText
  import opened Spans

  const Width: nat := 20

  /** The article marker, itself laid out like a token line labelled `O`. */
  const DocStart: string := "-DOCSTART-          O\n"

  /** `sep = ''.join([' '] * (20 - len(word)))`: empty once the word has 20 or more characters. */
  function Pad(word: string): string
  {
    Spaces(Width - |word|)
  }

  /** `sep.join([word] + labels) + '\n'`: the separator stands between the word and the
      first label and between any two labels. */
  function TokenLine(word: string, labels: seq<string>): string
  {
    Join(Pad(word), [word] + labels) + "\n"
  }

  /** The lines of the tokens `words[p..]` of a sentence whose spans are `spans`. */
  function SentenceFrom(words: seq<string>, spans: seq<Span>, p: nat): string
    decreases |words| - p
  {
    if p >= |words| then ""
    else TokenLine(words[p], TokenLabels(spans, p)) + SentenceFrom(words, spans, p + 1)
  }

  function SentenceText(words: seq<string>, spans: seq<Span>): string
  {
    SentenceFrom(words, spans, 0)
  }

  /** Text appended to a file, and whether the code that wrote it finished without
      an exception (when it did not, `text` is what had been written before). */
  datatype Emitted = Emitted(text: string, ok: bool)

  /** The writer's loop `for sen_idx, sentence in enumerate(sentences)` from sentence
      `k` on: a newline, then one line per token. The spans of sentence `k` are read
      as `segments[k]` at each token, so a non-empty sentence with no list in
      `segments` raises IndexError right after its newline. */
  function Body(sents: seq<seq<string>>, segs: seq<seq<Span>>, k: nat): Emitted
    decreases |sents| - k
  {
    if k >= |sents| then Emitted("", true)
    else if |sents[k]| > 0 && k >= |segs| then Emitted("\n", false)
    else
      var spans := if k < |segs| then segs[k] else [];
      var rest := Body(sents, segs, k + 1);
      Emitted("\n" + SentenceText(sents[k], spans) + rest.text, rest.ok)
  }

  /** With a list of spans for every sentence the writer never raises. */
  lemma {:induction false} BodyCompletes(sents: seq<seq<string>>, segs: seq<seq<Span>>, k: nat)
    requires |sents| <= |segs|
    ensures Body(sents, segs, k).ok
    decreases |sents| - k
  {
    if k < |sents| {
      BodyCompletes(sents, segs, k + 1);
    }
  }

  lemma {:induction false} JoinPrefix(sep: string, word: string, labels: seq<string>)
    requires labels != []
    ensures Join(sep, [word] + labels) == word + sep + Join(sep, labels)
  {
    assert ([word] + labels)[1..] == labels;
  }

  /** A word shorter than 20 characters, then blanks up to column 20, where its label
      starts. */
  lemma LabelAtColumn20(word: string, lab: string)
    requires |word| < Width
    ensures var line := TokenLine(word, [lab]);
            |line| == Width + |lab| + 1 &&
            line[..|word|] == word &&
            (forall i :: |word| <= i < Width ==> line[i] == ' ') &&
            line[Width..] == lab + "\n"
  {
    JoinPrefix(Pad(word), word, [lab]);
    var line := TokenLine(word, [lab]);
    assert line == word + Pad(word) + lab + "\n";
    assert forall i :: |word| <= i < Width ==> line[i] == Pad(word)[i - |word|];
  }

  /** A word of 20 characters or more is followed by its label with nothing between. */
  lemma LongWordTouchesLabel(word: string, lab: string)
    requires |word| >= Width
    ensures TokenLine(word, [lab]) == word + lab + "\n"
  {
    JoinPrefix(Pad(word), word, [lab]);
  }

  /** Several labels are each preceded by the same padding. */
  lemma EveryLabelPadded(word: string, labels: seq<string>)
    ensures TokenLine(word, labels) == word + Concat(seq(|labels|, i requires 0 <= i < |labels| => Pad(word) + labels[i])) + "\n"
  {
    var sep := Pad(word);
    if labels != [] {
      JoinPrefix(sep, word, labels);
      JoinTail(sep, labels);
    }
  }

  lemma {:induction false} JoinTail(sep: string, labels: seq<string>)
    requires labels != []
    ensures sep + Join(sep, labels) == Concat(seq(|labels|, i requires 0 <= i < |labels| => sep + labels[i]))
    decreases |labels|
  {
    var padded := seq(|labels|, i requires 0 <= i < |labels| => sep + labels[i]);
    if |labels| > 1 {
      JoinTail(sep, labels[1..]);
      assert padded[1..] == seq(|labels| - 1, i requires 0 <= i < |labels| - 1 => sep + labels[1..][i]);
    } else {
      assert padded[1..] == [];
    }
  }

  /** The marker line is the token line of `-DOCSTART-` labelled `O`. */
  lemma DocStartIsTokenLine()
    ensures DocStart == TokenLine("-DOCSTART-", ["O"])
  {
    LabelAtColumn20("-DOCSTART-", "O");
  }

  /** The file the writer appends to (`open(path, 'a')`) or rewrites (`open(path, 'w')`). */
  class TextFile {
    var text: string

    constructor (initial: string)
      ensures text == initial
    {
      text := initial;
    }

    method Write(s: string)
      modifies this
      ensures text == old(text) + s
    {
      text := text + s;
    }

    method Truncate()
      modifies this
      ensures text == ""
    {
      text := "";
    }
  }

  lemma Assoc(a: string, b: string, c: string)
    ensures a + b + c == a + (b + c)
  {
  }

  /** One token line per word of the sentence, labels resolved against `spans`. */
  method WriteSentence(f: TextFile, words: seq<string>, spans: seq<Span>)
    modifies f
    ensures f.text == old(f.text) + SentenceText(words, spans)
  {
    var p := 0;
    while p < |words|
      invariant 0 <= p <= |words|
      invariant f.text + SentenceFrom(words, spans, p) == old(f.text) + SentenceText(words, spans)
    {
      var word := words[p];
      var labels := ResolveLabels(spans, p);
      var line := Join(Pad(word), [word] + labels) + "\n";
      assert SentenceFrom(words, spans, p) == line + SentenceFrom(words, spans, p + 1);
      Assoc(f.text, line, SentenceFrom(words, spans, p + 1));
      f.Write(line);
      p := p + 1;
    }
  }

  lemma Regroup(a: string, b: string, c: string, d: string)
    ensures a + b + c + d == a + (b + c + d)
  {
  }

  /** One step of `Body`: sentence `k` and what follows it. */
  lemma BodyStep(sents: seq<seq<string>>, segs: seq<seq<Span>>, k: nat)
    requires k < |sents|
    ensures |sents[k]| > 0 && k >= |segs| ==> Body(sents, segs, k) == Emitted("\n", false)
    ensures !(|sents[k]| > 0 && k >= |segs|) ==>
              var spans := if k < |segs| then segs[k] else [];
              Body(sents, segs, k).text == "\n" + SentenceText(sents[k], spans) + Body(sents, segs, k + 1).text &&
              Body(sents, segs, k).ok == Body(sents, segs, k + 1).ok
  {
  }

  /** One pass of the writer's loop: the newline, then the sentence's token lines,
      or IndexError when a non-empty sentence has no list of spans. */
  method WriteBlock(f: TextFile, sents: seq<seq<string>>, segs: seq<seq<Span>>, k: nat) returns (ok: bool)
    requires k < |sents|
    modifies f
    ensures ok == !(|sents[k]| > 0 && k >= |segs|)
    ensures ok ==> f.text + Body(sents, segs, k + 1).text == old(f.text) + Body(sents, segs, k).text
    ensures ok ==> Body(sents, segs, k + 1).ok == Body(sents, segs, k).ok
    ensures !ok ==> f.text == old(f.text) + Body(sents, segs, k).text && !Body(sents, segs, k).ok
  {
    BodyStep(sents, segs, k);
    f.Write("\n");
    if |sents[k]| > 0 && k >= |segs| {
      return false;
    }
    var spans := if k < |segs| then segs[k] else [];
    WriteSentence(f, sents[k], spans);
    ok := true;
    Regroup(old(f.text), "\n", SentenceText(sents[k], spans), Body(sents, segs, k + 1).text);
  }

  /** The writer's loop over the sentences, `ok` false when it raised. */
  method WriteSentences(f: TextFile, sents: seq<seq<string>>, segs: seq<seq<Span>>) returns (ok: bool)
    modifies f
    ensures f.text == old(f.text) + Body(sents, segs, 0).text
    ensures ok == Body(sents, segs, 0).ok
  {
    var k := 0;
    while k < |sents|
      invariant 0 <= k <= |sents|
      invariant f.text + Body(sents, segs, k).text == old(f.text) + Body(sents, segs, 0).text
      invariant Body(sents, segs, k).ok == Body(sents, segs, 0).ok
    {
      ok := WriteBlock(f, sents, segs, k);
      if !ok {
        return;
      }
      k := k + 1;
    }
    ok := true;
  }
}
