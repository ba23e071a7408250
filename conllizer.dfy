/** `WiFiNECoNLLizer` of `src/conllize.py`: the two vocabularies, the article index
    `art2doc` built once over all shards, and the conversion of one annotation file,
    article by article, appended to its output file. */
module Conllizer {
  import opened PyText
  import opened Vocab
  import opened Shards
  import opened Spans
  import opened Segments
  import opened Documents
  import opened Conll
  import opened Annotations

  /** `NUM_FILES`: the index scans shards `0 .. NUM_FILES` inclusive. */
  const NumFiles: nat := 3241

  /** The inputs one call of `conllize_article` reads: the loaded tables, the document
      directory and the annotation file. */
  datatype Tables = Tables(figer: map<int, string>, vocab: map<int, string>, art2doc: map<int, int>, fs: Directory, ann: Lines)

  /** `conllize_article(..., art_id, sen_idx_min, sen_idx_max)`: what it appends to the
      output file and whether it returns normally. Every step before the writer can
      raise (no bounds to subtract, span collection, the `art2doc` lookup, opening the
      shard, reading the document), in which case nothing is written. */
  function ArticleRun(t: Tables, c: Call): Emitted
  {
    if c.lo.None? || c.hi.None? then Emitted("", false)
    else
      var lo := c.lo.value;
      var hi := c.hi.value;
      match CollectSpans(t.figer, t.ann, c.artId, lo, false, Empties(hi - lo + 1))
      case None => Emitted("", false)
      case Some(segs) =>
        if c.artId.None? || c.artId.value !in t.art2doc then Emitted("", false)
        else match Shard(t.fs, t.art2doc[c.artId.value])
          case None => Emitted("", false)
          case Some(doc) =>
            match DocScan(t.vocab, Window(c.artId, lo, hi, lo), doc, false, -1, [])
            case None => Emitted("", false)
            case Some(sents) =>
              var body := Body(sents, segs, 0);
              Emitted("\n" + DocStart + body.text, body.ok)
  }

  /** Once the spans are collected and the document read, the writer never raises:
      there is a list of spans for every kept sentence. */
  lemma ArticleWriterCompletes(t: Tables, c: Call)
    requires c.lo.Some? && c.hi.Some? && c.artId.Some? && c.artId.value in t.art2doc
    requires CollectSpans(t.figer, t.ann, c.artId, c.lo.value, false, Empties(c.hi.value - c.lo.value + 1)).Some?
    requires Shard(t.fs, t.art2doc[c.artId.value]).Some?
    requires DocScan(t.vocab, Window(c.artId, c.lo.value, c.hi.value, c.lo.value), Shard(t.fs, t.art2doc[c.artId.value]).value, false, -1, []).Some?
    ensures ArticleRun(t, c).ok
  {
    var lo, hi := c.lo.value, c.hi.value;
    var doc := Shard(t.fs, t.art2doc[c.artId.value]).value;
    ArticleSpans(t.figer, t.ann, c.artId, lo, hi);
    DocumentSentenceCount(t.vocab, Window(c.artId, lo, hi, lo), doc);
    var segs := CollectSpans(t.figer, t.ann, c.artId, lo, false, Empties(hi - lo + 1)).value;
    var sents := DocScan(t.vocab, Window(c.artId, lo, hi, lo), doc, false, -1, []).value;
    BodyCompletes(sents, segs, 0);
  }

  /** What one article looks like in the output: a blank line and the `-DOCSTART-`
      line, then the article's sentences numbered `sen_idx_min` on (when that is not
      negative), each the vocabulary image of its document line, written against the
      spans collected for it; at most `sen_idx_max - sen_idx_min + 1` of them. */
  lemma ArticleOutput(t: Tables, c: Call)
    requires ArticleRun(t, c).ok
    ensures c.lo.Some? && c.hi.Some? && c.artId.Some? && c.artId.value in t.art2doc
    ensures var lo, hi := c.lo.value, c.hi.value;
            var segs := CollectSpans(t.figer, t.ann, c.artId, lo, false, Empties(hi - lo + 1));
            var doc := Shard(t.fs, t.art2doc[c.artId.value]);
            segs.Some? && doc.Some? &&
            var w := Window(c.artId, lo, hi, lo);
            var sents := DocScan(t.vocab, w, doc.value, false, -1, []);
            sents.Some? &&
            ArticleRun(t, c).text == "\n" + DocStart + Body(sents.value, segs.value, 0).text &&
            |sents.value| <= |segs.value| &&
            (lo >= 0 ==>
               ArticleLines(c.artId, doc.value, false).Some? &&
               var art := ArticleLines(c.artId, doc.value, false).value;
               forall k :: 0 <= k < |sents.value| ==>
                 lo + k < |art| && Tokens(t.vocab, art[lo + k]) == Some(sents.value[k]))
  {
    var lo, hi := c.lo.value, c.hi.value;
    var doc := Shard(t.fs, t.art2doc[c.artId.value]).value;
    var w := Window(c.artId, lo, hi, lo);
    ArticleSpans(t.figer, t.ann, c.artId, lo, hi);
    DocumentSentenceCount(t.vocab, w, doc);
    if lo >= 0 {
      DocumentSentences(t.vocab, w, doc);
    }
  }

  /** The calls of one annotation file run in order; the first that raises ends the
      program, so later calls write nothing. */
  function RunCalls(t: Tables, calls: seq<Call>): Emitted
    decreases |calls|
  {
    if calls == [] then Emitted("", true)
    else
      var prev := RunCalls(t, calls[..|calls| - 1]);
      if !prev.ok then prev
      else
        var r := ArticleRun(t, calls[|calls| - 1]);
        Emitted(prev.text + r.text, r.ok)
  }

  /** After a call that raised, nothing more is written. */
  lemma {:induction false} RunCallsStop(t: Tables, a: seq<Call>, b: seq<Call>)
    requires !RunCalls(t, a).ok
    ensures RunCalls(t, a + b) == RunCalls(t, a)
    decreases |b|
  {
    if b != [] {
      var front := b[..|b| - 1];
      RunCallsStop(t, a, front);
      assert (a + b)[..|a + b| - 1] == a + front;
    } else {
      assert a + b == a;
    }
  }

  /** `conllize_file`: the articles its grouping loop passes on, appended in order. */
  function FileRun(t: Tables): Emitted
  {
    var g := Group(Start, t.ann);
    var r := RunCalls(t, g.calls);
    Emitted(r.text, r.ok && g.ok)
  }

  /** A file of well-formed blocks is converted block by block, the output of each
      article appended after the previous one's, in file order. */
  lemma FileOfBlocks(t: Tables, blocks: seq<Block>)
    requires |blocks| > 0 && forall i :: 0 <= i < |blocks| ==> GoodBlock(blocks[i])
    requires t.ann == Flatten(blocks)
    ensures FileRun(t) == RunCalls(t, CallsOf(blocks))
    ensures |CallsOf(blocks)| == |blocks|
    ensures forall i :: 0 <= i < |blocks| ==> CallsOf(blocks)[i] == CallOf(blocks[i])
  {
    GroupBlocks(blocks);
    CallsOfIndex(blocks);
  }

  lemma {:induction false} CallsOfIndex(blocks: seq<Block>)
    requires forall i :: 0 <= i < |blocks| ==> GoodBlock(blocks[i])
    ensures |CallsOf(blocks)| == |blocks|
    ensures forall i :: 0 <= i < |blocks| ==> CallsOf(blocks)[i] == CallOf(blocks[i])
    decreases |blocks|
  {
    if blocks != [] {
      CallsOfIndex(blocks[1..]);
      assert forall i :: 1 <= i < |blocks| ==> blocks[i] == blocks[1..][i - 1];
    }
  }

  /** The annotation loop of `conllize_article`, with its `found` flag and `break`. */
  method ReadArticleSpans(figer: map<int, string>, lines: Lines, artId: Option<int>, lo: int, segs0: Buckets) returns (segs: Buckets, ok: bool)
    ensures ok == CollectSpans(figer, lines, artId, lo, false, segs0).Some?
    ensures ok ==> segs == CollectSpans(figer, lines, artId, lo, false, segs0).value
  {
    segs := segs0;
    var found := false;
    var i := 0;
    while i < |lines|
      invariant 0 <= i <= |lines|
      invariant CollectSpans(figer, lines[i..], artId, lo, found, segs) == CollectSpans(figer, lines, artId, lo, false, segs0)
    {
      var line := lines[i];
      assert lines[i..][1..] == lines[i + 1..];
      if |line| == 0 {
        return segs, false;
      }
      if line[0] == "ID" {
        if found {
          break;
        }
        var id := IdOf(line);
        if id.None? {
          return segs, false;
        }
        if Some(id.value) == artId {
          found := true;
        }
      } else if found {
        var r := ParseRecord(line, figer);
        if r.Some? && r.value.menType == 0 {
          var j := PyIndex(|segs|, r.value.senIdx - lo);
          if j.None? {
            return segs, false;
          }
          segs := segs[j.value := segs[j.value] + [SpanOf(r.value)]];
        }
      }
      i := i + 1;
    }
    ok := true;
  }

  class Conllizer {
    var documentVocab: map<int, string>
    var figerVocab: map<int, string>
    /** Article id to shard number (the shard's path in the program). */
    var art2doc: map<int, int>

    constructor ()
      ensures documentVocab == map[] && figerVocab == map[] && art2doc == map[]
    {
      documentVocab := map[];
      figerVocab := map[];
      art2doc := map[];
    }

    /** `load_document_vocab`: each line read sets entry `i` to the line's first word;
        `ok` false when a line without fields raised. */
    method LoadDocumentVocab(lines: Lines) returns (ok: bool)
      modifies this
      ensures documentVocab == old(documentVocab) + VocabOf(lines[..Readable(lines)])
      ensures ok <==> Readable(lines) == |lines|
      ensures figerVocab == old(figerVocab) && art2doc == old(art2doc)
    {
      var v;
      v, ok := ReadVocab(lines);
      documentVocab := documentVocab + v;
    }

    /** `load_figer_vocab`, the same for the entity types. */
    method LoadFigerVocab(lines: Lines) returns (ok: bool)
      modifies this
      ensures figerVocab == old(figerVocab) + VocabOf(lines[..Readable(lines)])
      ensures ok <==> Readable(lines) == |lines|
      ensures documentVocab == old(documentVocab) && art2doc == old(art2doc)
    {
      var v;
      v, ok := ReadVocab(lines);
      figerVocab := figerVocab + v;
    }

    /** The scan of one shard that opened: every `ID` line read stores shard `i` for its
        article; the first line that raises ends the shard (`except: pass`). */
    method IndexShard(lines: Lines, i: int)
      modifies this
      ensures art2doc == old(art2doc) + IdMap(ShardIds(lines), i)
      ensures documentVocab == old(documentVocab) && figerVocab == old(figerVocab)
    {
      var t := 0;
      assert lines[0..] == lines;
      while t < |lines|
        invariant 0 <= t <= |lines|
        invariant art2doc + IdMap(ShardIds(lines[t..]), i) == old(art2doc) + IdMap(ShardIds(lines), i)
        invariant documentVocab == old(documentVocab) && figerVocab == old(figerVocab)
      {
        var line := lines[t];
        assert lines[t..][1..] == lines[t + 1..];
        if |line| == 0 {
          break;
        }
        if line[0] == "ID" {
          var id := IdOf(line);
          if id.None? {
            break;
          }
          IdMapCons(art2doc, id.value, ShardIds(lines[t + 1..]), i);
          art2doc := art2doc[id.value := i];
        }
        t := t + 1;
      }
      assert IdMap([], i) == map[];
      assert art2doc + map[] == art2doc;
    }

    /** `load_document_paths`: shards `0 .. NUM_FILES` scanned in order; a shard that
        cannot be opened is passed over. */
    method LoadDocumentPaths(fs: Directory)
      modifies this
      ensures art2doc == Scan(old(art2doc), fs, NumFiles + 1)
      ensures documentVocab == old(documentVocab) && figerVocab == old(figerVocab)
    {
      var i := 0;
      while i <= NumFiles
        invariant 0 <= i <= NumFiles + 1
        invariant art2doc == Scan(old(art2doc), fs, i)
        invariant documentVocab == old(documentVocab) && figerVocab == old(figerVocab)
      {
        var shard := Shard(fs, i);
        if shard.Some? {
          IndexShard(shard.value, i);
        }
        i := i + 1;
      }
    }

    function TablesFor(fs: Directory, ann: Lines): Tables
      reads this
    {
      Tables(figerVocab, documentVocab, art2doc, fs, ann)
    }

    /** `conllize_article`: appends the article to `out`, or raises before writing. */
    method ConllizeArticle(ann: Lines, fs: Directory, out: TextFile, c: Call) returns (ok: bool)
      modifies out
      ensures out.text == old(out.text) + ArticleRun(TablesFor(fs, ann), c).text
      ensures ok == ArticleRun(TablesFor(fs, ann), c).ok
    {
      if c.lo.None? || c.hi.None? {
        return false;
      }
      var lo, hi := c.lo.value, c.hi.value;
      var segs := NewSegments(hi - lo + 1);
      segs, ok := ReadArticleSpans(figerVocab, ann, c.artId, lo, segs);
      if !ok {
        return false;
      }
      if c.artId.None? || c.artId.value !in art2doc {
        return false;
      }
      var doc := Shard(fs, art2doc[c.artId.value]);
      if doc.None? {
        return false;
      }
      var sents;
      sents, ok := ScanDocument(documentVocab, Window(c.artId, lo, hi, lo), doc.value, []);
      if !ok {
        return false;
      }
      ghost var before := out.text;
      assert ArticleRun(TablesFor(fs, ann), c) == Emitted("\n" + DocStart + Body(sents, segs, 0).text, Body(sents, segs, 0).ok);
      out.Write("\n" + DocStart);
      ok := WriteSentences(out, sents, segs);
      Assoc(before, "\n" + DocStart, Body(sents, segs, 0).text);
    }

    /** A call of `conllize_article` made after the calls `done`. */
    method PassOn(ann: Lines, fs: Directory, out: TextFile, c: Call, ghost base: string, ghost done: seq<Call>) returns (ok: bool)
      requires out.text == base + RunCalls(TablesFor(fs, ann), done).text && RunCalls(TablesFor(fs, ann), done).ok
      modifies out
      ensures out.text == base + RunCalls(TablesFor(fs, ann), done + [c]).text
      ensures ok == RunCalls(TablesFor(fs, ann), done + [c]).ok
    {
      var t := TablesFor(fs, ann);
      ok := ConllizeArticle(ann, fs, out, c);
      RunCallsSnoc(t, done, c);
      Assoc(base, RunCalls(t, done).text, ArticleRun(t, c).text);
    }

    /** At an `ID` line of the grouping loop of `conllize_file`, in the state `g` reached
        after the calls `done`: the call for the block before it, if there is one; `stop`
        when the loop ends here because something raised. */
    method CloseBlock(ann: Lines, fs: Directory, out: TextFile, g: Grouping, i: nat, ghost base: string, ghost done: seq<Call>)
      returns (ghost done': seq<Call>, stop: bool)
      requires i < |ann| && |ann[i]| > 0 && ann[i][0] == "ID"
      requires Group(Start, ann) == Calls(done + Group(g, ann[i..]).calls, Group(g, ann[i..]).ok)
      requires out.text == base + RunCalls(TablesFor(fs, ann), done).text && RunCalls(TablesFor(fs, ann), done).ok
      modifies out
      ensures stop ==> out.text == base + RunCalls(TablesFor(fs, ann), Group(Start, ann).calls).text
      ensures stop ==> !(RunCalls(TablesFor(fs, ann), Group(Start, ann).calls).ok && Group(Start, ann).ok)
      ensures !stop ==> var after := AfterHeader(g, ann[i], ann[i + 1..]);
                        Group(Start, ann) == Calls(done' + after.calls, after.ok)
      ensures !stop ==> out.text == base + RunCalls(TablesFor(fs, ann), done').text && RunCalls(TablesFor(fs, ann), done').ok
    {
      var line := ann[i];
      var t := TablesFor(fs, ann);
      assert ann[i..] == [line] + ann[i + 1..];
      GroupStep(g, line, ann[i + 1..]);
      ghost var after := AfterHeader(g, line, ann[i + 1..]);
      done', stop := done, false;
      if g.artId.Some? {
        var c := Args(g);
        if c.None? {
          assert done + [] == done;
          return done, true;
        }
        var ok := PassOn(ann, fs, out, c.value, base, done);
        done' := done + [c.value];
        assert Group(Start, ann).calls == done' + after.calls;
        if !ok {
          RunCallsStop(t, done', after.calls);
          return done', true;
        }
      } else {
        assert [] + after.calls == after.calls;
      }
    }

    /** `conllize_file`: the grouping loop, calling `conllize_article` at every `ID` line
        that follows a block and once more at the end of the file. */
    method ConllizeFile(ann: Lines, fs: Directory, out: TextFile) returns (ok: bool)
      modifies out
      ensures out.text == old(out.text) + FileRun(TablesFor(fs, ann)).text
      ensures ok == FileRun(TablesFor(fs, ann)).ok
    {
      var t := TablesFor(fs, ann);
      var g := Start;
      ghost var done: seq<Call> := [];
      var i := 0;
      assert ann[0..] == ann;
      while i < |ann|
        invariant 0 <= i <= |ann|
        invariant Group(Start, ann) == Calls(done + Group(g, ann[i..]).calls, Group(g, ann[i..]).ok)
        invariant out.text == old(out.text) + RunCalls(t, done).text && RunCalls(t, done).ok
      {
        var line := ann[i];
        assert ann[i..] == [line] + ann[i + 1..];
        if |line| == 0 {
          GroupStep(g, line, ann[i + 1..]);
          assert done + [] == done;
          return false;
        }
        if line[0] == "ID" {
          var stop;
          done, stop := CloseBlock(ann, fs, out, g, i, old(out.text), done);
          if stop {
            return false;
          }
          var id := IdOf(line);
          if id.None? {
            assert done + [] == done;
            return false;
          }
          g := Grouping(Some(id.value), Null, g.hi);
        } else {
          GroupStep(g, line, ann[i + 1..]);
          var s := ParseInt(line[0]);
          if s.None? || g.lo.Unbound? {
            assert done + [] == done;
            return false;
          }
          g := Grouping(g.artId, if g.lo.Null? then Val(s.value) else g.lo, Val(s.value));
        }
        i := i + 1;
      }
      assert ann[i..] == [];
      var c := Args(g);
      if c.None? {
        assert done + [] == done;
        return false;
      }
      ok := PassOn(ann, fs, out, c.value, old(out.text), done);
    }
  }

  lemma IdMapCons(m: map<int, int>, id: int, rest: seq<int>, v: int)
    ensures m[id := v] + IdMap(rest, v) == m + IdMap([id] + rest, v)
  {
  }

  lemma RunCallsSnoc(t: Tables, done: seq<Call>, c: Call)
    requires RunCalls(t, done).ok
    ensures RunCalls(t, done + [c]) == Emitted(RunCalls(t, done).text + ArticleRun(t, c).text, ArticleRun(t, c).ok)
  {
    assert (done + [c])[..|done|] == done;
  }
}
