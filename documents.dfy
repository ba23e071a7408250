/** Reading the target article from its document shard: the sentence lines after
    its `ID` line, up to the next article's `ID` line, numbered from 0; the sentences
    whose number lies in `[sen_idx_min, sen_idx_max]` are kept, each token index
    turned into its word through `document_vocab`. */
module Documents {
  import opened PyText

  /** The article searched for (`None` when the annotation file had no `ID` line: then no
      `ID` line matches), the window `[lo, hi]` of sentence numbers to keep, and `base`,
      the number subtracted from a sentence number to find its place in `sentences`. */
  datatype Window = Window(artId: Option<int>, lo: int, hi: int, base: int)

  /** `document_vocab[int(wrd_idx)]`; `None` when it raises. */
  function Word(vocab: map<int, string>, field: string): Option<string>
  {
    match ParseInt(field)
    case None => None
    case Some(n) => if n in vocab then Some(vocab[n]) else None
  }

  /** The words of a sentence line, in order; `None` when one of them raises. */
  function Tokens(vocab: map<int, string>, line: Line): Option<seq<string>>
    decreases |line|
  {
    if line == [] then Some([])
    else match Word(vocab, line[0])
      case None => None
      case Some(w) =>
        match Tokens(vocab, line[1..])
        case None => None
        case Some(ws) => Some([w] + ws)
  }

  /** Keeping sentence line `line` with running number `i`: `sentences.append([])`, then
      every word appended to `sentences[i - base]` (Python indexing). */
  function Keep(vocab: map<int, string>, w: Window, i: int, sents: seq<seq<string>>, line: Line): Option<seq<seq<string>>>
  {
    var grown := sents + [[]];
    match PyIndex(|grown|, i - w.base)
    case None => None
    case Some(j) =>
      match Tokens(vocab, line)
      case None => None
      case Some(ws) => Some(grown[j := grown[j] + ws])
  }

  /** The document loop from `lines` on, with flag `right` (inside the target article),
      running sentence number `idx` and the sentences kept so far. `None`: an exception
      escapes (a line without fields, an `ID` line without an integer second field,
      or a kept line that cannot be indexed or looked up). */
  function DocScan(vocab: map<int, string>, w: Window, lines: Lines, right: bool, idx: int, sents: seq<seq<string>>): Option<seq<seq<string>>>
    decreases |lines|
  {
    if lines == [] then Some(sents)
    else
      var line := lines[0];
      if |line| == 0 then None
      else if line[0] == "ID" then
        match IdOf(line)
        case None => None
        case Some(id) =>
          if Some(id) == w.artId then DocScan(vocab, w, lines[1..], true, idx, sents)
          else if right then Some(sents)
          else DocScan(vocab, w, lines[1..], false, idx, sents)
      else if !right then DocScan(vocab, w, lines[1..], false, idx, sents)
      else if w.lo <= idx + 1 <= w.hi then
        match Keep(vocab, w, idx + 1, sents, line)
        case None => None
        case Some(next) => DocScan(vocab, w, lines[1..], true, idx + 1, next)
      else DocScan(vocab, w, lines[1..], true, idx + 1, sents)
  }

  /** The sentence lines of the target article: the non-`ID` lines after its (first)
      `ID` line, stopping at the first `ID` line of another article after it; a
      repeated `ID` line of the same article is passed over. `None` when a line on the
      way raises. */
  function ArticleLines(artId: Option<int>, lines: Lines, right: bool): Option<Lines>
    decreases |lines|
  {
    if lines == [] then Some([])
    else
      var line := lines[0];
      if |line| == 0 then None
      else if line[0] == "ID" then
        match IdOf(line)
        case None => None
        case Some(id) =>
          if Some(id) == artId then ArticleLines(artId, lines[1..], true)
          else if right then Some([])
          else ArticleLines(artId, lines[1..], false)
      else if !right then ArticleLines(artId, lines[1..], false)
      else match ArticleLines(artId, lines[1..], true)
        case None => None
        case Some(rest) => Some([line] + rest)
  }

  /** The windowing of the article's sentence lines, the one after number `idx`
      coming first. */
  function WindowFrom(vocab: map<int, string>, w: Window, art: Lines, idx: int, sents: seq<seq<string>>): Option<seq<seq<string>>>
    decreases |art|
  {
    if art == [] then Some(sents)
    else if w.lo <= idx + 1 <= w.hi then
      match Keep(vocab, w, idx + 1, sents, art[0])
      case None => None
      case Some(next) => WindowFrom(vocab, w, art[1..], idx + 1, next)
    else WindowFrom(vocab, w, art[1..], idx + 1, sents)
  }

  /** The document loop is the selection of the article's lines followed by the
      windowing of those lines. */
  lemma {:induction false} DocScanSplits(vocab: map<int, string>, w: Window, lines: Lines, right: bool, idx: int, sents: seq<seq<string>>)
    ensures DocScan(vocab, w, lines, right, idx, sents) ==
              match ArticleLines(w.artId, lines, right)
              case None => None
              case Some(art) => WindowFrom(vocab, w, art, idx, sents)
    decreases |lines|
  {
    if lines != [] && |lines[0]| > 0 {
      var line := lines[0];
      if line[0] == "ID" {
        if IdOf(line).Some? {
          DocScanSplits(vocab, w, lines[1..], IdOf(line) == w.artId || right, idx, sents);
        }
      } else if !right {
        DocScanSplits(vocab, w, lines[1..], false, idx, sents);
      } else {
        var art := ArticleLines(w.artId, lines[1..], true);
        if w.lo <= idx + 1 <= w.hi {
          var next := Keep(vocab, w, idx + 1, sents, line);
          if next.Some? {
            DocScanSplits(vocab, w, lines[1..], true, idx + 1, next.value);
          }
        } else {
          DocScanSplits(vocab, w, lines[1..], true, idx + 1, sents);
        }
        if art.Some? {
          assert ([line] + art.value)[1..] == art.value;
        }
      }
    }
  }

  function Max0(x: int): nat { if x > 0 then x else 0 }

  /** How many of the sentence numbers `0 .. t` lie in `[lo, hi]`. */
  function KeptUpTo(lo: int, hi: int, t: int): nat
  {
    var top := if t < hi then t else hi;
    if top < Max0(lo) then 0 else top - Max0(lo) + 1
  }

  /** Every sentence line in the window adds one entry to `sentences`, whatever index
      the entry's words go to. */
  lemma {:induction false} WindowCount(vocab: map<int, string>, w: Window, art: Lines, idx: int, sents: seq<seq<string>>)
    requires idx >= -1
    ensures WindowFrom(vocab, w, art, idx, sents).Some? ==>
              |WindowFrom(vocab, w, art, idx, sents).value| ==
                |sents| + KeptUpTo(w.lo, w.hi, idx + |art|) - KeptUpTo(w.lo, w.hi, idx)
    decreases |art|
  {
    if art != [] {
      if w.lo <= idx + 1 <= w.hi {
        var next := Keep(vocab, w, idx + 1, sents, art[0]);
        if next.Some? {
          WindowCount(vocab, w, art[1..], idx + 1, next.value);
        }
      } else {
        WindowCount(vocab, w, art[1..], idx + 1, sents);
      }
    }
  }

  /** With entries placed at `number - base` where `base` is the first number that can
      be kept (`max(lo, 0)`), the next kept line always goes to the entry just added. */
  lemma KeepAppends(vocab: map<int, string>, w: Window, idx: int, sents: seq<seq<string>>, line: Line)
    requires w.base == Max0(w.lo)
    requires idx >= -1 && |sents| == KeptUpTo(w.lo, w.hi, idx) && w.lo <= idx + 1 <= w.hi
    ensures Keep(vocab, w, idx + 1, sents, line).Some? <==> Tokens(vocab, line).Some?
    ensures Keep(vocab, w, idx + 1, sents, line).Some? ==>
              Keep(vocab, w, idx + 1, sents, line).value == sents + [Tokens(vocab, line).value]
    ensures w.base + |sents| == idx + 1
  {
    assert PyIndex(|sents| + 1, idx + 1 - w.base) == Some(|sents|);
    if Tokens(vocab, line).Some? {
      var ws := Tokens(vocab, line).value;
      var grown: seq<seq<string>> := sents + [[]];
      assert grown[|sents|] + ws == ws;
      assert grown[|sents| := ws] == sents + [ws];
    }
  }

  /** With `base == max(lo, 0)`, windowing fails exactly when a kept line has a token
      that cannot be looked up. */
  lemma {:induction false} WindowSucceeds(vocab: map<int, string>, w: Window, art: Lines, idx: int, sents: seq<seq<string>>)
    requires w.base == Max0(w.lo)
    requires idx >= -1 && |sents| == KeptUpTo(w.lo, w.hi, idx)
    ensures WindowFrom(vocab, w, art, idx, sents).Some? <==>
              forall j :: 0 <= j < |art| && w.lo <= idx + 1 + j <= w.hi ==> Tokens(vocab, art[j]).Some?
    decreases |art|
  {
    if art != [] {
      assert forall j :: 1 <= j < |art| ==> art[j] == art[1..][j - 1];
      if w.lo <= idx + 1 <= w.hi {
        KeepAppends(vocab, w, idx, sents, art[0]);
        var next := Keep(vocab, w, idx + 1, sents, art[0]);
        if next.Some? {
          WindowSucceeds(vocab, w, art[1..], idx + 1, next.value);
        }
      } else {
        WindowSucceeds(vocab, w, art[1..], idx + 1, sents);
      }
    }
  }

  /** With `base == max(lo, 0)`, entry `k` holds the words of article line `base + k`
      and the entries already present are untouched. */
  lemma {:induction false} WindowContents(vocab: map<int, string>, w: Window, art: Lines, idx: int, sents: seq<seq<string>>)
    requires w.base == Max0(w.lo)
    requires idx >= -1 && |sents| == KeptUpTo(w.lo, w.hi, idx)
    ensures WindowFrom(vocab, w, art, idx, sents).Some? ==>
              var res := WindowFrom(vocab, w, art, idx, sents).value;
              |res| == KeptUpTo(w.lo, w.hi, idx + |art|) &&
              res[..|sents|] == sents &&
              forall k :: |sents| <= k < |res| ==> Tokens(vocab, art[w.base + k - (idx + 1)]) == Some(res[k])
    decreases |art|
  {
    if art != [] && WindowFrom(vocab, w, art, idx, sents).Some? {
      var res := WindowFrom(vocab, w, art, idx, sents).value;
      if w.lo <= idx + 1 <= w.hi {
        KeepAppends(vocab, w, idx, sents, art[0]);
        var next := Keep(vocab, w, idx + 1, sents, art[0]).value;
        WindowContents(vocab, w, art[1..], idx + 1, next);
        assert res[..|sents|] == res[..|next|][..|sents|];
        forall k | |sents| <= k < |res|
          ensures Tokens(vocab, art[w.base + k - (idx + 1)]) == Some(res[k])
        {
          if k > |sents| {
            assert art[w.base + k - (idx + 1)] == art[1..][w.base + k - (idx + 2)];
          } else {
            assert res[k] == res[..|next|][k];
          }
        }
      } else {
        WindowContents(vocab, w, art[1..], idx + 1, sents);
        forall k | |sents| <= k < |res|
          ensures Tokens(vocab, art[w.base + k - (idx + 1)]) == Some(res[k])
        {
          assert art[w.base + k - (idx + 1)] == art[1..][w.base + k - (idx + 2)];
        }
      }
    }
  }

  /** The kept sentences of a document, read from the start of the shard with nothing
      kept yet: they are the article's sentence lines numbered `max(lo, 0)` on, as many
      as the window allows and never more than `hi - lo + 1`, each the vocabulary
      image of its line. */
  lemma DocumentSentences(vocab: map<int, string>, w: Window, lines: Lines)
    requires w.base == Max0(w.lo)
    ensures DocScan(vocab, w, lines, false, -1, []).Some? ==>
              ArticleLines(w.artId, lines, false).Some? &&
              var art := ArticleLines(w.artId, lines, false).value;
              var res := DocScan(vocab, w, lines, false, -1, []).value;
              |res| == KeptUpTo(w.lo, w.hi, |art| - 1) &&
              |res| <= Max0(w.hi - w.lo + 1) &&
              forall k :: 0 <= k < |res| ==> Tokens(vocab, art[w.base + k]) == Some(res[k])
  {
    DocScanSplits(vocab, w, lines, false, -1, []);
    if ArticleLines(w.artId, lines, false).Some? {
      WindowContents(vocab, w, ArticleLines(w.artId, lines, false).value, -1, []);
    }
  }

  /** Whatever `base` is, a successful scan keeps at most `hi - lo + 1` sentences. */
  lemma DocumentSentenceCount(vocab: map<int, string>, w: Window, lines: Lines)
    ensures DocScan(vocab, w, lines, false, -1, []).Some? ==>
              |DocScan(vocab, w, lines, false, -1, []).value| <= Max0(w.hi - w.lo + 1)
  {
    DocScanSplits(vocab, w, lines, false, -1, []);
    if ArticleLines(w.artId, lines, false).Some? {
      WindowCount(vocab, w, ArticleLines(w.artId, lines, false).value, -1, []);
    }
  }

  /** The token loop `for wrd_idx in line: sentences[j].append(document_vocab[int(wrd_idx)])`. */
  method AppendWords(vocab: map<int, string>, sents: seq<seq<string>>, j: nat, line: Line) returns (res: seq<seq<string>>, ok: bool)
    requires j < |sents|
    ensures ok == Tokens(vocab, line).Some?
    ensures ok ==> res == sents[j := sents[j] + Tokens(vocab, line).value]
  {
    res := sents;
    var added: seq<string> := [];
    var t := 0;
    assert line[0..] == line;
    assert sents[j] + added == sents[j];
    assert Tokens(vocab, line).Some? ==> added + Tokens(vocab, line).value == Tokens(vocab, line).value;
    while t < |line|
      invariant 0 <= t <= |line|
      invariant res == sents[j := sents[j] + added]
      invariant Tokens(vocab, line).Some? <==> Tokens(vocab, line[t..]).Some?
      invariant Tokens(vocab, line).Some? ==> Tokens(vocab, line).value == added + Tokens(vocab, line[t..]).value
    {
      assert line[t..][1..] == line[t + 1..];
      var n := ParseInt(line[t]);
      if n.None? || n.value !in vocab {
        return res, false;
      }
      var word := vocab[n.value];
      assert sents[j] + added + [word] == sents[j] + (added + [word]);
      assert Tokens(vocab, line[t..]).Some? ==> Tokens(vocab, line[t..]).value == [word] + Tokens(vocab, line[t + 1..]).value;
      res := res[j := res[j] + [word]];
      added := added + [word];
      t := t + 1;
    }
    ok := true;
    assert added + [] == added;
  }

  /** The document loop: `right_article`, the running `sen_idx`, the `break` at the next
      article, starting from the sentences `sents0` already stored. */
  method ScanDocument(vocab: map<int, string>, w: Window, lines: Lines, sents0: seq<seq<string>>) returns (sents: seq<seq<string>>, ok: bool)
    ensures ok == DocScan(vocab, w, lines, false, -1, sents0).Some?
    ensures ok ==> sents == DocScan(vocab, w, lines, false, -1, sents0).value
  {
    sents := sents0;
    var right := false;
    var idx := -1;
    var i := 0;
    while i < |lines|
      invariant 0 <= i <= |lines|
      invariant DocScan(vocab, w, lines[i..], right, idx, sents) == DocScan(vocab, w, lines, false, -1, sents0)
    {
      var line := lines[i];
      assert lines[i..][1..] == lines[i + 1..];
      if |line| == 0 {
        return sents, false;
      }
      if line[0] == "ID" {
        var id := IdOf(line);
        if id.None? {
          return sents, false;
        }
        if Some(id.value) == w.artId {
          right := true;
          i := i + 1;
          continue;
        } else if right {
          break;
        }
      }
      if right {
        idx := idx + 1;
        if w.lo <= idx <= w.hi {
          sents := sents + [[]];
          var j := PyIndex(|sents|, idx - w.base);
          if j.None? {
            return sents, false;
          }
          sents, ok := AppendWords(vocab, sents, j.value, line);
          if !ok {
            return sents, false;
          }
        }
      }
      i := i + 1;
    }
    ok := true;
  }
}
