/** Loading `document.vocab` and `figer.vocab`: entry `i` of the dictionary is the
    first field of line `i`. The same loop appears in all three versions of the
    converter. */
module Vocab {
  import opened PyText

  predicate AllNonEmpty(lines: Lines)
  {
    forall i :: 0 <= i < |lines| ==> |lines[i]| > 0
  }

  /** How many lines the loader gets through: `line[0]` raises IndexError on the
      first line without fields, and the entries before it stay in the dictionary. */
  function Readable(lines: Lines): (k: nat)
    ensures k <= |lines|
    ensures AllNonEmpty(lines[..k])
    ensures k < |lines| ==> |lines[k]| == 0
    decreases |lines|
  {
    if lines == [] || |lines[0]| == 0 then 0
    else
      var k := 1 + Readable(lines[1..]);
      assert lines[..k] == [lines[0]] + lines[1..][..k - 1];
      k
  }

  /** The dictionary `{i: line[0] for i, line in enumerate(lines)}`, built one
      assignment at a time as the loader's loop does. */
  function VocabOf(lines: Lines): map<int, string>
    requires AllNonEmpty(lines)
    decreases |lines|
  {
    if lines == [] then map[]
    else VocabOf(lines[..|lines| - 1])[|lines| - 1 := lines[|lines| - 1][0]]
  }

  /** The keys are exactly `0 .. n-1` and entry `i` is the first field of line `i`. */
  lemma {:induction false} VocabEntries(lines: Lines)
    requires AllNonEmpty(lines)
    ensures forall k :: k in VocabOf(lines) <==> 0 <= k < |lines|
    ensures forall i :: 0 <= i < |lines| ==> VocabOf(lines)[i] == lines[i][0]
    decreases |lines|
  {
    if lines != [] {
      var front := lines[..|lines| - 1];
      VocabEntries(front);
      assert forall i :: 0 <= i < |front| ==> front[i] == lines[i];
    }
  }

  /** The loader's loop: `for i, line in enumerate(file): vocab[i] = line.split()[0]`.
      On success `ok` holds; otherwise the loop stopped at the first line without
      fields and `vocab` holds what it had assigned before. */
  method ReadVocab(lines: Lines) returns (vocab: map<int, string>, ok: bool)
    ensures ok <==> Readable(lines) == |lines|
    ensures vocab == VocabOf(lines[..Readable(lines)])
  {
    var n := Readable(lines);
    vocab := map[];
    var i := 0;
    while i < |lines|
      invariant 0 <= i <= n
      invariant vocab == VocabOf(lines[..i])
    {
      if |lines[i]| == 0 {
        return vocab, false;
      }
      assert lines[..i + 1][..i] == lines[..i];
      vocab := vocab[i := lines[i][0]];
      i := i + 1;
    }
    ok := true;
    assert lines[..i] == lines;
  }
}
