/** `WiFiNEProcessor` of the two earlier drafts, `generate.py` and `conllize.py`: one
    article per run, held in fields (`art_id`, `sen_idx_min`, `sen_idx_max`,
    `segments`, `sentences`, `document_path`), read in two passes over the annotation
    file and written to a truncated output file. The drafts differ in what the second
    pass does with a malformed annotation line (`generate.py` raises, `conllize.py`
    skips it) and in `generate.py`'s debug prints of entries 0 and 1 of `segments`
    and of `sentences`, which raise IndexError when a list is shorter than two. */
module Drafts {
  import opened PyText
  import opened Vocab
  import opened Shards
  import opened Spans
  import opened Segments
  import opened Documents
  import opened Conll
  import opened Annotations

  datatype Script = GenerateScript | ConllizeScript

  /** `conllize.py` wraps the parsing of an annotation line in `try`/`continue`. */
  predicate Skips(script: Script)
  {
    script == ConllizeScript
  }

  /** `generate.py` prints `segments[0]`, `segments[1]`, `sentences[0]` and `sentences[1]`. */
  predicate Probes(script: Script)
  {
    script == GenerateScript
  }

  /** The three fields the first pass sets. */
  datatype Header = Header(artId: Option<int>, lo: Option<int>, hi: Option<int>)

  /** The first pass from `lines` on, `notFirst` telling whether an `ID` line was seen:
      the first `ID` line sets `art_id`, the second ends the pass, and every other line
      (also one before the first `ID` line) is a data line whose `sen_idx` becomes the
      minimum when none is recorded and the maximum always. `None`: an exception
      escapes (a line without fields, an id or `sen_idx` that is not an integer). */
  function Pass1(lines: Lines, notFirst: bool, h: Header): Option<Header>
    decreases |lines|
  {
    if lines == [] then Some(h)
    else
      var line := lines[0];
      if |line| == 0 then None
      else if line[0] == "ID" then
        if notFirst then Some(h)
        else match IdOf(line)
          case None => None
          case Some(id) => Pass1(lines[1..], true, Header(Some(id), h.lo, h.hi))
      else match ParseInt(line[0])
        case None => None
        case Some(s) => Pass1(lines[1..], notFirst, Header(h.artId, if h.lo.None? then Some(s) else h.lo, Some(s)))
  }

  /** Inside the first block, data lines set the minimum when none is recorded and
      move the maximum. */
  lemma {:induction false} Pass1Data(data: Lines, rest: Lines, h: Header)
    requires |data| > 0 && forall k :: 0 <= k < |data| ==> DataLine(data[k])
    ensures Pass1(data + rest, true, h) ==
            Pass1(rest, true, Header(h.artId, if h.lo.None? then Some(SenIdx(data[0])) else h.lo, Some(SenIdx(data[|data| - 1]))))
    decreases |data|
  {
    Unprefix(data[0], data[1..], rest);
    assert [data[0]] + data[1..] == data;
    var h1 := Header(h.artId, if h.lo.None? then Some(SenIdx(data[0])) else h.lo, Some(SenIdx(data[0])));
    if |data| > 1 {
      assert forall k :: 0 <= k < |data| - 1 ==> data[1..][k] == data[k + 1];
      Pass1Data(data[1..], rest, h1);
    } else {
      assert data[1..] + rest == rest;
    }
  }

  lemma Unprefix<T>(x: T, s: seq<T>, t: seq<T>)
    ensures ([x] + s + t)[0] == x && ([x] + s + t)[1..] == s + t
  {
    assert [x] + s + t == [x] + (s + t);
  }

  /** A file that starts with a well-formed block followed by the end of the file or
      another `ID` line: the first pass sets `art_id` to the block's id,
      `sen_idx_min` to its first data line's `sen_idx` (the first seen, not the least)
      and `sen_idx_max` to its last one's. */
  lemma FirstBlockBounds(header: Line, data: Lines, rest: Lines)
    requires GoodBlock(Block(header, data))
    requires rest != [] ==> |rest[0]| > 0 && rest[0][0] == "ID"
    ensures Pass1([header] + data + rest, false, Header(None, None, None)) ==
            Some(Header(IdOf(header), Some(SenIdx(data[0])), Some(SenIdx(data[|data| - 1]))))
  {
    Unprefix(header, data, rest);
    Pass1Data(data, rest, Header(IdOf(header), None, None));
  }

  /** The recorded minimum is the first `sen_idx` seen: with `5` before `2`, the bounds
      are `5` and `2`, and `segments` gets no list at all. */
  lemma MinIsFirstSeen()
    ensures Pass1([["ID", "7"], ["5", "0", "1", "0", "0"], ["2", "0", "1", "0", "0"]], false, Header(None, None, None)) ==
            Some(Header(Some(7), Some(5), Some(2)))
    ensures Empties(2 - 5 + 1) == []
  {
    var block := Block(["ID", "7"], [["5", "0", "1", "0", "0"], ["2", "0", "1", "0", "0"]]);
    assert ParseInt("7") == Some(7) && ParseInt("5") == Some(5) && ParseInt("2") == Some(2);
    FirstBlockBounds(block.header, block.data, []);
    assert [block.header] + block.data + [] == [["ID", "7"], ["5", "0", "1", "0", "0"], ["2", "0", "1", "0", "0"]];
  }

  /** What both passes select: the data lines before the second `ID` line (including
      any before the first), and the `art_id` set on the way. */
  datatype Section = Section(artId: Option<int>, data: Lines)

  function Select(lines: Lines, notFirst: bool, artId: Option<int>): Option<Section>
    decreases |lines|
  {
    if lines == [] then Some(Section(artId, []))
    else
      var line := lines[0];
      if |line| == 0 then None
      else if line[0] == "ID" then
        if notFirst then Some(Section(artId, []))
        else match IdOf(line)
          case None => None
          case Some(id) => Select(lines[1..], true, Some(id))
      else match Select(lines[1..], notFirst, artId)
        case None => None
        case Some(sec) => Some(Section(sec.artId, [line] + sec.data))
  }

  /** The second pass: the same `ID` handling as the first, and each data line applied
      to `segments[sen_idx]` with no offset (`shift` 0). */
  function Pass2(figer: map<int, string>, skip: bool, lines: Lines, notFirst: bool, artId: Option<int>, segs: Buckets): Option<(Option<int>, Buckets)>
    decreases |lines|
  {
    if lines == [] then Some((artId, segs))
    else
      var line := lines[0];
      if |line| == 0 then None
      else if line[0] == "ID" then
        if notFirst then Some((artId, segs))
        else match IdOf(line)
          case None => None
          case Some(id) => Pass2(figer, skip, lines[1..], true, Some(id), segs)
      else match Apply(figer, skip, 0, segs, line)
        case None => None
        case Some(next) => Pass2(figer, skip, lines[1..], notFirst, artId, next)
  }

  /** The second pass is the selection followed by the application of the selected
      lines. */
  lemma {:induction false} Pass2Splits(figer: map<int, string>, skip: bool, lines: Lines, notFirst: bool, artId: Option<int>, segs: Buckets)
    ensures Pass2(figer, skip, lines, notFirst, artId, segs) ==
              match Select(lines, notFirst, artId)
              case None => None
              case Some(sec) =>
                match ApplyAll(figer, skip, 0, segs, sec.data)
                case None => None
                case Some(res) => Some((sec.artId, res))
    decreases |lines|
  {
    if lines != [] && |lines[0]| > 0 {
      var line := lines[0];
      if line[0] == "ID" {
        if !notFirst && IdOf(line).Some? {
          Pass2Splits(figer, skip, lines[1..], true, IdOf(line), segs);
        }
      } else {
        var next := Apply(figer, skip, 0, segs, line);
        if next.Some? {
          Pass2Splits(figer, skip, lines[1..], notFirst, artId, next.value);
        }
        var sec := Select(lines[1..], notFirst, artId);
        if sec.Some? {
          assert ([line] + sec.value.data)[1..] == sec.value.data;
        }
      }
    }
  }

  /** `segments` after the second pass, started from `n` empty lists: it succeeds
      exactly when every selected line fits (in `generate.py` that includes being
      well-formed), and list `j` then holds the spans of the selected named-entity
      records whose raw `sen_idx` selects list `j`, in file order. */
  lemma DraftSpans(figer: map<int, string>, skip: bool, lines: Lines, artId: Option<int>, n: int)
    ensures var res := Pass2(figer, skip, lines, false, artId, Empties(n));
            var sec := Select(lines, false, artId);
            var len := if n > 0 then n else 0;
            (res.Some? <==> sec.Some? && forall k :: 0 <= k < |sec.value.data| ==> Fits(figer, skip, len, 0, sec.value.data[k])) &&
            (res.Some? ==>
              res.value.0 == sec.value.artId &&
              |res.value.1| == len &&
              forall j :: 0 <= j < len ==> res.value.1[j] == SpansFor(figer, len, 0, sec.value.data, j))
  {
    var segs := Empties(n);
    Pass2Splits(figer, skip, lines, false, artId, segs);
    var sec := Select(lines, false, artId);
    if sec.Some? {
      ApplyAllBuckets(figer, skip, 0, segs, sec.value.data);
      var res := ApplyAll(figer, skip, 0, segs, sec.value.data);
      if res.Some? {
        forall j | 0 <= j < |segs|
          ensures res.value[j] == SpansFor(figer, |segs|, 0, sec.value.data, j)
        {
          assert segs[j] == [];
        }
      }
    }
  }

  /** The shard `load_document_path` settles on, searching from shard `i` up: the
      lowest-numbered one whose scan meets `ID art_id`. `None` when there is none, in
      which case the program's `while True` search never ends (every later shard
      fails to open). */
  function FirstShard(fs: Directory, artId: Option<int>, i: nat): Option<nat>
    decreases |fs| - i
  {
    if i >= |fs| then None
    else if artId.Some? && Contains(fs, i, artId.value) then Some(i)
    else FirstShard(fs, artId, i + 1)
  }

  /** The search finds shard `j` exactly when `j` is the lowest-numbered shard from `i`
      on containing the article, and fails exactly when no shard does. */
  lemma {:induction false} FirstShardIsLeast(fs: Directory, artId: Option<int>, i: nat)
    ensures FirstShard(fs, artId, i).Some? ==>
              var j := FirstShard(fs, artId, i).value;
              i <= j < |fs| && artId.Some? && Contains(fs, j, artId.value) &&
              forall k :: i <= k < j ==> !Contains(fs, k, artId.value)
    ensures FirstShard(fs, artId, i).None? <==>
              artId.None? || forall k :: i <= k < |fs| ==> !Contains(fs, k, artId.value)
    decreases |fs| - i
  {
    if i < |fs| {
      FirstShardIsLeast(fs, artId, i + 1);
    }
  }

  /** The scan of one shard during the search: whether an `ID art_id` line is met before
      a line that raises (`except: pass` moves on to the next shard). */
  method Mentions(lines: Lines, artId: Option<int>) returns (found: bool)
    ensures found == (artId.Some? && artId.value in ShardIds(lines))
  {
    var t := 0;
    assert lines[0..] == lines;
    while t < |lines|
      invariant 0 <= t <= |lines|
      invariant (artId.Some? && artId.value in ShardIds(lines)) == (artId.Some? && artId.value in ShardIds(lines[t..]))
    {
      var line := lines[t];
      assert lines[t..][1..] == lines[t + 1..];
      if |line| == 0 {
        return false;
      }
      if line[0] == "ID" {
        var id := IdOf(line);
        if id.None? {
          return false;
        }
        if Some(id.value) == artId {
          return true;
        }
      }
      t := t + 1;
    }
    return false;
  }

  /** The inputs a run reads besides the fields. */
  datatype Inputs = Inputs(figer: map<int, string>, vocab: map<int, string>, ann: Lines, fs: Directory)

  /** The fields that `generate` changes. */
  datatype Draft = Draft(artId: Option<int>, lo: Option<int>, hi: Option<int>, segments: Buckets, sentences: seq<seq<string>>, documentPath: Option<nat>)

  /** How a run of `generate` ends: normally, with the new fields and the contents of
      the output file; with an exception, with the partial contents when the output
      file was already opened (`None`: not opened, and so untouched); or never, when no
      shard contains the article. */
  datatype Run = Completed(fields: Draft, output: string) | Raised(partial: Option<string>) | Diverges

  /** The fields after the two passes over the annotation file and, in `generate.py`,
      the debug prints of `segments`; `None` when one of them raises. Both bounds are
      then set, and the sentences and the document path are as before. */
  function Annotated(script: Script, figer: map<int, string>, ann: Lines, d: Draft): (r: Option<Draft>)
    ensures r.Some? ==> r.value.lo.Some? && r.value.hi.Some?
    ensures r.Some? ==> r.value.sentences == d.sentences && r.value.documentPath == d.documentPath
  {
    match Pass1(ann, false, Header(d.artId, d.lo, d.hi))
    case None => None
    case Some(h) =>
      if h.lo.None? || h.hi.None? then None
      else
        match Pass2(figer, Skips(script), ann, false, h.artId, Empties(h.hi.value - h.lo.value + 1))
        case None => None
        case Some(p2) =>
          if Probes(script) && |p2.1| < 2 then None
          else Some(Draft(p2.0, h.lo, h.hi, p2.1, d.sentences, d.documentPath))
  }

  /** `generate()` from the fields `d`. */
  function DraftRun(script: Script, inp: Inputs, d: Draft): Run
  {
    match Annotated(script, inp.figer, inp.ann, d)
    case None => Raised(None)
    case Some(a) =>
      match FirstShard(inp.fs, a.artId, 0)
      case None => Diverges
      case Some(p) =>
        match Shard(inp.fs, p)
        case None => Raised(None)
        case Some(doc) =>
          match DocScan(inp.vocab, Window(a.artId, a.lo.value, a.hi.value, 0), doc, false, -1, a.sentences)
          case None => Raised(None)
          case Some(sents) =>
            if Probes(script) && |sents| < 2 then Raised(None)
            else
              var body := Body(sents, a.segments, 0);
              var text := DocStart + body.text;
              if body.ok then Completed(a.(sentences := sents, documentPath := Some(p)), text)
              else Raised(Some(text))
  }

  /** A completed run from the initial fields (nothing set, no sentences) on a file
      whose first block starts at sentence 0: the output is the `-DOCSTART-` line with
      no blank line before it, then the sentences; sentence `k` is the vocabulary image
      of the article's line `k`; list `j` of `segments` holds the spans of the
      selected records for sentence `j`; and the document is the lowest-numbered shard
      containing the article. */
  lemma DraftCompleted(script: Script, inp: Inputs)
    requires DraftRun(script, inp, Draft(None, None, None, [], [], None)).Completed?
    requires Pass1(inp.ann, false, Header(None, None, None)).Some?
    requires Pass1(inp.ann, false, Header(None, None, None)).value.lo == Some(0)
    ensures var r := DraftRun(script, inp, Draft(None, None, None, [], [], None));
            var f := r.fields;
            var sec := Select(inp.ann, false, Pass1(inp.ann, false, Header(None, None, None)).value.artId);
            f.documentPath.Some? && f.hi.Some? && sec.Some? &&
            var doc := Shard(inp.fs, f.documentPath.value);
            doc.Some? && ArticleLines(f.artId, doc.value, false).Some? &&
            var art := ArticleLines(f.artId, doc.value, false).value;
            r.output[..|DocStart|] == DocStart &&
            r.output == DocStart + Body(f.sentences, f.segments, 0).text &&
            |f.segments| == Max0(f.hi.value + 1) &&
            (forall k :: 0 <= k < |f.sentences| ==> k < |art| && Tokens(inp.vocab, art[k]) == Some(f.sentences[k])) &&
            (forall j :: 0 <= j < |f.segments| ==> f.segments[j] == SpansFor(inp.figer, |f.segments|, 0, sec.value.data, j)) &&
            FirstShard(inp.fs, f.artId, 0) == f.documentPath
  {
    var d := Draft(None, None, None, [], [], None);
    var r := DraftRun(script, inp, d);
    var h := Pass1(inp.ann, false, Header(None, None, None)).value;
    var hi := h.hi.value;
    assert Annotated(script, inp.figer, inp.ann, d).Some?;
    var a := Annotated(script, inp.figer, inp.ann, d).value;
    assert a.lo == h.lo && a.hi == h.hi;
    assert Pass2(inp.figer, Skips(script), inp.ann, false, h.artId, Empties(hi - 0 + 1)) == Some((a.artId, a.segments));
    assert FirstShard(inp.fs, a.artId, 0).Some?;
    var p := FirstShard(inp.fs, a.artId, 0).value;
    assert Shard(inp.fs, p).Some?;
    var doc := Shard(inp.fs, p).value;
    var w := Window(a.artId, 0, hi, 0);
    assert DocScan(inp.vocab, w, doc, false, -1, []).Some?;
    var sents := DocScan(inp.vocab, w, doc, false, -1, []).value;
    assert r == Completed(a.(sentences := sents, documentPath := Some(p)), DocStart + Body(sents, a.segments, 0).text);
    DraftSpans(inp.figer, Skips(script), inp.ann, h.artId, hi - 0 + 1);
    FirstShardIsLeast(inp.fs, a.artId, 0);
    DocumentSentences(inp.vocab, w, doc);
  }

  /** A second pass that raises on no line skips none, so skipping changes nothing. */
  lemma {:induction false} StrictPassSkipsNothing(figer: map<int, string>, lines: Lines, notFirst: bool, artId: Option<int>, segs: Buckets)
    requires Pass2(figer, false, lines, notFirst, artId, segs).Some?
    ensures Pass2(figer, true, lines, notFirst, artId, segs) == Pass2(figer, false, lines, notFirst, artId, segs)
    decreases |lines|
  {
    if lines != [] && |lines[0]| > 0 {
      var line := lines[0];
      if line[0] == "ID" {
        if !notFirst {
          StrictPassSkipsNothing(figer, lines[1..], true, IdOf(line), segs);
        }
      } else {
        assert Apply(figer, true, 0, segs, line) == Apply(figer, false, 0, segs, line);
        StrictPassSkipsNothing(figer, lines[1..], notFirst, artId, Apply(figer, false, 0, segs, line).value);
      }
    }
  }

  /** Whenever `generate.py` completes, `conllize.py` completes with the same fields and
      output, and the debug prints held: at least two span lists and two sentences. */
  lemma ScriptsAgree(inp: Inputs, d: Draft)
    requires DraftRun(GenerateScript, inp, d).Completed?
    ensures DraftRun(ConllizeScript, inp, d) == DraftRun(GenerateScript, inp, d)
    ensures |DraftRun(GenerateScript, inp, d).fields.segments| >= 2
    ensures |DraftRun(GenerateScript, inp, d).fields.sentences| >= 2
  {
    var h := Pass1(inp.ann, false, Header(d.artId, d.lo, d.hi)).value;
    StrictPassSkipsNothing(inp.figer, inp.ann, false, h.artId, Empties(h.hi.value - h.lo.value + 1));
  }

  /** When the first block starts at sentence 1, reading the document by the raw
      running `sen_idx` raises: the first kept sentence is appended as entry 0 and
      then looked up as entry 1. With the offset `sen_idx - sen_idx_min` it succeeds. */
  lemma RawSentenceIndexRaises()
    ensures DocScan(map[0 := "a"], Window(Some(1), 1, 1, 0), [["ID", "1"], ["0"], ["0"]], false, -1, []).None?
    ensures DocScan(map[0 := "a"], Window(Some(1), 1, 1, 1), [["ID", "1"], ["0"], ["0"]], false, -1, []) == Some([["a"]])
  {
    var vocab := map[0 := "a"];
    assert Show(0) == "0" && Show(1) == "1";
    ParseIntShow(0);
    ParseIntShow(1);
    var line: Line := ["0"];
    assert line[1..] == [];
    assert Word(vocab, "0") == Some("a");
    assert Tokens(vocab, line[1..]) == Some([]);
    assert ["a"] + [] == ["a"];
    assert Tokens(vocab, line) == Some(["a"]);
    var lines: Lines := [["ID", "1"], line, line];
    assert IdOf(lines[0]) == Some(1);
    assert lines[1..] == [line, line] && [line, line][1..] == [line] && [line][1..] == [];
    var grown: seq<seq<string>> := [] + [[]];
    assert grown == [[]];
    forall base | base == 0 || base == 1
      ensures DocScan(vocab, Window(Some(1), 1, 1, base), lines, false, -1, []) ==
              Keep(vocab, Window(Some(1), 1, 1, base), 1, [], line)
    {
      var w := Window(Some(1), 1, 1, base);
      assert DocScan(vocab, w, lines, false, -1, []) == DocScan(vocab, w, [line, line], true, -1, []);
      assert DocScan(vocab, w, [line, line], true, -1, []) == DocScan(vocab, w, [line], true, 0, []);
      var kept := Keep(vocab, w, 1, [], line);
      if kept.Some? {
        assert DocScan(vocab, w, [], true, 1, kept.value) == kept;
      }
    }
    assert Keep(vocab, Window(Some(1), 1, 1, 0), 1, [], line).None?;
    assert [] + ["a"] == ["a"];
    assert Keep(vocab, Window(Some(1), 1, 1, 1), 1, [], line) == Some(grown[0 := grown[0] + ["a"]]);
    assert grown[0 := grown[0] + ["a"]] == [["a"]];
  }

  /** The same for the span lists: with `sen_idx_min` 1 the record of sentence 1 is
      looked up as entry 1 of a single list. */
  lemma RawSegmentIndexRaises()
    ensures ApplyAll(map[0 := "PER"], false, 0, Empties(1), [["1", "0", "1", "0", "0"]]).None?
    ensures ApplyAll(map[0 := "PER"], false, 1, Empties(1), [["1", "0", "1", "0", "0"]]) == Some([[Span(0, 0, "PER")]])
  {
    var figer := map[0 := "PER"];
    assert Show(0) == "0" && Show(1) == "1";
    ParseIntShow(0);
    ParseIntShow(1);
    var line: Line := ["1", "0", "1", "0", "0"];
    assert ParseRecord(line, figer) == Some(Record(1, 0, 0, 0, "PER"));
    var segs := Empties(1);
    assert segs == [[]];
    assert [line][1..] == [];
    assert Apply(figer, false, 0, segs, line).None?;
    assert [] + [Span(0, 0, "PER")] == [Span(0, 0, "PER")];
    assert Apply(figer, false, 1, segs, line) == Some(segs[0 := segs[0] + [Span(0, 0, "PER")]]);
    assert segs[0 := segs[0] + [Span(0, 0, "PER")]] == [[Span(0, 0, "PER")]];
    assert ApplyAll(figer, false, 1, [[Span(0, 0, "PER")]], []) == Some([[Span(0, 0, "PER")]]);
  }

  class Processor {
    const script: Script
    var documentVocab: map<int, string>
    var figerVocab: map<int, string>
    var artId: Option<int>
    var senIdxMin: Option<int>
    var senIdxMax: Option<int>
    var segments: Buckets
    var sentences: seq<seq<string>>
    var documentPath: Option<nat>

    constructor (s: Script)
      ensures script == s
      ensures documentVocab == map[] && figerVocab == map[]
      ensures Fields() == Draft(None, None, None, [], [], None)
    {
      script := s;
      documentVocab, figerVocab := map[], map[];
      artId, senIdxMin, senIdxMax := None, None, None;
      segments, sentences, documentPath := [], [], None;
    }

    function Fields(): Draft
      reads this
    {
      Draft(artId, senIdxMin, senIdxMax, segments, sentences, documentPath)
    }

    function InputsFor(ann: Lines, fs: Directory): Inputs
      reads this
    {
      Inputs(figerVocab, documentVocab, ann, fs)
    }

    /** `load_document_vocab`: entry `i` is the first word of line `i`. */
    method LoadDocumentVocab(lines: Lines) returns (ok: bool)
      modifies this
      ensures documentVocab == old(documentVocab) + VocabOf(lines[..Readable(lines)])
      ensures ok <==> Readable(lines) == |lines|
      ensures figerVocab == old(figerVocab) && Fields() == old(Fields())
    {
      var v;
      v, ok := ReadVocab(lines);
      documentVocab := documentVocab + v;
    }

    /** `load_figer_vocab`, the same for the entity types. */
    method LoadFigerVocab(lines: Lines) returns (ok: bool)
      modifies this
      ensures figerVocab == old(figerVocab) + VocabOf(lines[..Readable(lines)])
      ensures ok <==> Readable(lines) == |lines|
      ensures documentVocab == old(documentVocab) && Fields() == old(Fields())
    {
      var v;
      v, ok := ReadVocab(lines);
      figerVocab := figerVocab + v;
    }

    /** The first pass over the annotation file. */
    method ReadBounds(ann: Lines) returns (ok: bool)
      modifies this
      ensures ok == Pass1(ann, false, old(Header(artId, senIdxMin, senIdxMax))).Some?
      ensures ok ==> Header(artId, senIdxMin, senIdxMax) == Pass1(ann, false, old(Header(artId, senIdxMin, senIdxMax))).value
      ensures segments == old(segments) && sentences == old(sentences) && documentPath == old(documentPath)
      ensures documentVocab == old(documentVocab) && figerVocab == old(figerVocab)
    {
      var notFirst := false;
      var i := 0;
      while i < |ann|
        invariant 0 <= i <= |ann|
        invariant Pass1(ann[i..], notFirst, Header(artId, senIdxMin, senIdxMax)) == Pass1(ann, false, old(Header(artId, senIdxMin, senIdxMax)))
        invariant segments == old(segments) && sentences == old(sentences) && documentPath == old(documentPath)
        invariant documentVocab == old(documentVocab) && figerVocab == old(figerVocab)
      {
        var line := ann[i];
        assert ann[i..][1..] == ann[i + 1..];
        if |line| == 0 {
          return false;
        }
        if line[0] == "ID" {
          if notFirst {
            break;
          }
          var id := IdOf(line);
          if id.None? {
            return false;
          }
          artId := Some(id.value);
          notFirst := true;
        } else {
          var s := ParseInt(line[0]);
          if s.None? {
            return false;
          }
          if senIdxMin.None? {
            senIdxMin := Some(s.value);
          }
          senIdxMax := Some(s.value);
        }
        i := i + 1;
      }
      ok := true;
    }

    /** `self.segments = [None] * (max - min + 1)` and the loop making each entry a new
        empty list; `ok` false when a bound is `None` (TypeError). */
    method AllocateSegments() returns (ok: bool)
      modifies this
      ensures ok == (senIdxMin.Some? && senIdxMax.Some?)
      ensures ok ==> segments == Empties(senIdxMax.value - senIdxMin.value + 1)
      ensures artId == old(artId) && senIdxMin == old(senIdxMin) && senIdxMax == old(senIdxMax)
      ensures sentences == old(sentences) && documentPath == old(documentPath)
      ensures documentVocab == old(documentVocab) && figerVocab == old(figerVocab)
    {
      if senIdxMin.None? || senIdxMax.None? {
        return false;
      }
      segments := NewSegments(senIdxMax.value - senIdxMin.value + 1);
      ok := true;
    }

    /** The second pass over the annotation file. */
    method ReadSegments(ann: Lines) returns (ok: bool)
      modifies this
      ensures ok == Pass2(figerVocab, Skips(script), ann, false, old(artId), old(segments)).Some?
      ensures ok ==> (artId, segments) == Pass2(figerVocab, Skips(script), ann, false, old(artId), old(segments)).value
      ensures senIdxMin == old(senIdxMin) && senIdxMax == old(senIdxMax)
      ensures sentences == old(sentences) && documentPath == old(documentPath)
      ensures documentVocab == old(documentVocab) && figerVocab == old(figerVocab)
    {
      var notFirst := false;
      var i := 0;
      while i < |ann|
        invariant 0 <= i <= |ann|
        invariant Pass2(figerVocab, Skips(script), ann[i..], notFirst, artId, segments) ==
                  Pass2(figerVocab, Skips(script), ann, false, old(artId), old(segments))
        invariant senIdxMin == old(senIdxMin) && senIdxMax == old(senIdxMax)
        invariant sentences == old(sentences) && documentPath == old(documentPath)
        invariant documentVocab == old(documentVocab) && figerVocab == old(figerVocab)
      {
        var line := ann[i];
        assert ann[i..][1..] == ann[i + 1..];
        if |line| == 0 {
          return false;
        }
        if line[0] == "ID" {
          if notFirst {
            break;
          }
          var id := IdOf(line);
          if id.None? {
            return false;
          }
          artId := Some(id.value);
          notFirst := true;
        } else {
          var r := ParseRecord(line, figerVocab);
          if r.None? {
            if !Skips(script) {
              return false;
            }
          } else if r.value.menType == 0 {
            var j := PyIndex(|segments|, r.value.senIdx);
            if j.None? {
              return false;
            }
            segments := segments[j.value := segments[j.value] + [SpanOf(r.value)]];
          }
        }
        i := i + 1;
      }
      ok := true;
    }

    /** `print(self.segments[0])`, `print(self.segments[1])` in `generate.py`. */
    method ProbeSegments() returns (ok: bool)
      ensures ok <==> !Probes(script) || |segments| >= 2
    {
      ok := true;
      if Probes(script) {
        ok := PyIndex(|segments|, 0).Some? && PyIndex(|segments|, 1).Some?;
      }
    }

    /** `print(self.sentences[0])`, `print(self.sentences[1])` in `generate.py`. */
    method ProbeSentences() returns (ok: bool)
      ensures ok <==> !Probes(script) || |sentences| >= 2
    {
      ok := true;
      if Probes(script) {
        ok := PyIndex(|sentences|, 0).Some? && PyIndex(|sentences|, 1).Some?;
      }
    }

    /** `load_document_path`: shards searched from 0 up, the first one containing the
        article recorded. `found` false stands for the search that never ends. */
    method LoadDocumentPath(fs: Directory) returns (found: bool)
      modifies this
      ensures found == FirstShard(fs, artId, 0).Some?
      ensures found ==> documentPath == FirstShard(fs, artId, 0)
      ensures !found ==> documentPath == old(documentPath)
      ensures artId == old(artId) && senIdxMin == old(senIdxMin) && senIdxMax == old(senIdxMax)
      ensures segments == old(segments) && sentences == old(sentences)
      ensures documentVocab == old(documentVocab) && figerVocab == old(figerVocab)
    {
      var i := 0;
      while i < |fs|
        invariant 0 <= i <= |fs|
        invariant FirstShard(fs, artId, 0) == FirstShard(fs, artId, i)
        invariant Fields() == old(Fields())
        invariant documentVocab == old(documentVocab) && figerVocab == old(figerVocab)
      {
        var shard := Shard(fs, i);
        if shard.Some? {
          var hit := Mentions(shard.value, artId);
          if hit {
            documentPath := Some(i);
            return true;
          }
        }
        i := i + 1;
      }
      return false;
    }

    /** Reading the document into `self.sentences`, entries placed at the raw running
        `sen_idx`. Only reached with both bounds set; `ok` false when no path was
        recorded or a line raises. */
    method ReadSentences(fs: Directory) returns (ok: bool)
      requires senIdxMin.Some? && senIdxMax.Some?
      modifies this
      ensures artId == old(artId) && senIdxMin == old(senIdxMin) && senIdxMax == old(senIdxMax)
      ensures segments == old(segments) && documentPath == old(documentPath)
      ensures documentVocab == old(documentVocab) && figerVocab == old(figerVocab)
      ensures documentPath.None? || Shard(fs, documentPath.value).None? ==> !ok
      ensures documentPath.Some? && Shard(fs, documentPath.value).Some? ==>
                var res := DocScan(documentVocab, Window(artId, senIdxMin.value, senIdxMax.value, 0),
                                   Shard(fs, documentPath.value).value, false, -1, old(sentences));
                ok == res.Some? && (ok ==> sentences == res.value)
    {
      if documentPath.None? {
        return false;
      }
      var doc := Shard(fs, documentPath.value);
      if doc.None? {
        return false;
      }
      sentences, ok := ScanDocument(documentVocab, Window(artId, senIdxMin.value, senIdxMax.value, 0), doc.value, sentences);
    }

    /** The writer: the output file truncated (`open(path, 'w')`), the `-DOCSTART-` line,
        then the sentences. */
    method WriteOutput(out: TextFile) returns (ok: bool)
      modifies out
      ensures out.text == DocStart + Body(sentences, segments, 0).text
      ensures ok == Body(sentences, segments, 0).ok
    {
      out.Truncate();
      out.Write(DocStart);
      ok := WriteSentences(out, sentences, segments);
    }

    /** The part of `generate()` that reads the annotation file. */
    method ReadAnnotations(ann: Lines) returns (ok: bool)
      modifies this
      ensures ok == Annotated(script, figerVocab, ann, old(Fields())).Some?
      ensures ok ==> Fields() == Annotated(script, figerVocab, ann, old(Fields())).value
      ensures documentVocab == old(documentVocab) && figerVocab == old(figerVocab)
    {
      ghost var d := Fields();
      ok := ReadBounds(ann);
      if !ok {
        return;
      }
      ghost var h := Header(artId, senIdxMin, senIdxMax);
      assert Pass1(ann, false, Header(d.artId, d.lo, d.hi)) == Some(h);
      ok := AllocateSegments();
      if !ok {
        return;
      }
      ok := ReadSegments(ann);
      if !ok {
        return;
      }
      ok := ProbeSegments();
    }

    /** `generate()`. */
    method Generate(ann: Lines, fs: Directory, out: TextFile) returns (r: Run)
      modifies this, out
      ensures r == DraftRun(script, old(InputsFor(ann, fs)), old(Fields()))
      ensures r.Completed? ==> Fields() == r.fields && out.text == r.output
      ensures r.Raised? && r.partial.Some? ==> out.text == r.partial.value
      ensures (r.Raised? && r.partial.None?) || r.Diverges? ==> out.text == old(out.text)
      ensures documentVocab == old(documentVocab) && figerVocab == old(figerVocab)
    {
      var ok := ReadAnnotations(ann);
      if !ok {
        return Raised(None);
      }
      var found := LoadDocumentPath(fs);
      if !found {
        return Diverges;
      }
      FirstShardIsLeast(fs, artId, 0);
      ok := ReadSentences(fs);
      if !ok {
        return Raised(None);
      }
      ok := ProbeSentences();
      if !ok {
        return Raised(None);
      }
      ok := WriteOutput(out);
      if !ok {
        return Raised(Some(out.text));
      }
      r := Completed(Fields(), out.text);
    }
  }
}
