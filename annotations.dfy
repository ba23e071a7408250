/** The annotation file of `src/conllize.py`: blocks made of an `ID <art_id>` line
    followed by data lines `<sen_idx> <begin> <end_exclusive> <men_type> <figer index>`.
    Two readings of it: the grouping loop of `conllize_file`, which calls
    `conllize_article` once per block, and the span collection of `conllize_article`,
    which reads the block of one article. */
module Annotations {
  import opened PyText
  import opened Spans
  import opened Segments

  /** `found` false: still looking for `ID art_id`; true: inside its block. The data
      lines are applied with `try ... except: continue` around the parse and with
      `segments[sen_idx - sen_idx_min]` as the destination. `None`: an exception escapes
      (a line without fields, an `ID` line without an integer second field before the
      block, or an out-of-range destination). */
  function CollectSpans(figer: map<int, string>, lines: Lines, artId: Option<int>, lo: int, found: bool, segs: Buckets): Option<Buckets>
    decreases |lines|
  {
    if lines == [] then Some(segs)
    else
      var line := lines[0];
      if |line| == 0 then None
      else if line[0] == "ID" then
        if found then Some(segs)
        else match IdOf(line)
          case None => None
          case Some(id) => CollectSpans(figer, lines[1..], artId, lo, Some(id) == artId, segs)
      else if found then
        match Apply(figer, true, lo, segs, line)
        case None => None
        case Some(next) => CollectSpans(figer, lines[1..], artId, lo, true, next)
      else CollectSpans(figer, lines[1..], artId, lo, false, segs)
  }

  /** The data lines of the first block of `art_id`: after its `ID` line and before the
      next `ID` line. `None` when a line on the way raises. */
  function AnnotationBlock(artId: Option<int>, lines: Lines, found: bool): Option<Lines>
    decreases |lines|
  {
    if lines == [] then Some([])
    else
      var line := lines[0];
      if |line| == 0 then None
      else if line[0] == "ID" then
        if found then Some([])
        else match IdOf(line)
          case None => None
          case Some(id) => AnnotationBlock(artId, lines[1..], Some(id) == artId)
      else if found then
        match AnnotationBlock(artId, lines[1..], true)
        case None => None
        case Some(rest) => Some([line] + rest)
      else AnnotationBlock(artId, lines[1..], false)
  }

  /** Span collection is the selection of the article's block followed by the
      application of its lines. */
  lemma {:induction false} CollectSplits(figer: map<int, string>, lines: Lines, artId: Option<int>, lo: int, found: bool, segs: Buckets)
    ensures CollectSpans(figer, lines, artId, lo, found, segs) ==
              match AnnotationBlock(artId, lines, found)
              case None => None
              case Some(block) => ApplyAll(figer, true, lo, segs, block)
    decreases |lines|
  {
    if lines != [] && |lines[0]| > 0 {
      var line := lines[0];
      if line[0] == "ID" {
        if !found && IdOf(line).Some? {
          CollectSplits(figer, lines[1..], artId, lo, IdOf(line) == artId, segs);
        }
      } else if found {
        var next := Apply(figer, true, lo, segs, line);
        if next.Some? {
          CollectSplits(figer, lines[1..], artId, lo, true, next.value);
        }
        var rest := AnnotationBlock(artId, lines[1..], true);
        if rest.Some? {
          assert ([line] + rest.value)[1..] == rest.value;
        }
      } else {
        CollectSplits(figer, lines[1..], artId, lo, false, segs);
      }
    }
  }

  /** `segments` of `conllize_article`: the `sen_idx_max - sen_idx_min + 1` empty lists
      filled from the article's block. Collection succeeds exactly when the block can be
      selected and each of its lines fits; then list `j` holds, in file order, the spans
      of the block's well-formed named-entity records whose `sen_idx - sen_idx_min`
      selects list `j`, and malformed lines contribute nothing. */
  lemma ArticleSpans(figer: map<int, string>, lines: Lines, artId: Option<int>, lo: int, hi: int)
    ensures var res := CollectSpans(figer, lines, artId, lo, false, Empties(hi - lo + 1));
            var n := if hi - lo + 1 > 0 then hi - lo + 1 else 0;
            (res.Some? <==>
              AnnotationBlock(artId, lines, false).Some? &&
              forall k :: 0 <= k < |AnnotationBlock(artId, lines, false).value| ==>
                Fits(figer, true, n, lo, AnnotationBlock(artId, lines, false).value[k])) &&
            (res.Some? ==>
              |res.value| == n &&
              forall j :: 0 <= j < n ==> res.value[j] == SpansFor(figer, n, lo, AnnotationBlock(artId, lines, false).value, j))
  {
    var segs := Empties(hi - lo + 1);
    CollectSplits(figer, lines, artId, lo, false, segs);
    var block := AnnotationBlock(artId, lines, false);
    if block.Some? {
      ApplyAllBuckets(figer, true, lo, segs, block.value);
      var res := ApplyAll(figer, true, lo, segs, block.value);
      if res.Some? {
        forall j | 0 <= j < |segs|
          ensures res.value[j] == SpansFor(figer, |segs|, lo, block.value, j)
        {
          assert segs[j] == [];
        }
      }
    }
  }

  /** A local variable of `conllize_file`: never assigned yet, holding `None`, or holding
      an integer. */
  datatype Bound = Unbound | Null | Val(v: int)

  function ValueOf(b: Bound): Option<int>
  {
    if b.Val? then Some(b.v) else None
  }

  /** The variables `art_id`, `sen_idx_min`, `sen_idx_max` of the grouping loop. An `ID`
      line resets `sen_idx_min` only: the reset of the maximum is written `sen_ind_max`,
      so `sen_idx_max` keeps the previous block's value. */
  datatype Grouping = Grouping(artId: Option<int>, lo: Bound, hi: Bound)

  /** The arguments of one call of `conllize_article`. */
  datatype Call = Call(artId: Option<int>, lo: Option<int>, hi: Option<int>)

  /** The calls the grouping loop makes, in order, and whether it then ends normally
      (`ok` false: it raised after making `calls`). */
  datatype Calls = Calls(calls: seq<Call>, ok: bool)

  /** Evaluating `conllize_article(..., art_id, sen_idx_min, sen_idx_max)`'s arguments:
      `None` when one of the variables was never assigned (UnboundLocalError). */
  function Args(g: Grouping): Option<Call>
  {
    if g.lo.Unbound? || g.hi.Unbound? then None
    else Some(Call(g.artId, ValueOf(g.lo), ValueOf(g.hi)))
  }

  /** The grouping loop of `conllize_file` from `lines` on. An `ID` line first calls
      `conllize_article` for the block before it (when there is one), then parses the
      new id; a data line parses its `sen_idx`, records it as the minimum when none is
      recorded yet and as the maximum always; the last block is passed on at the end of
      the file. A line without fields, an id or `sen_idx` that is not an integer, and a
      data line before any `ID` line all raise. */
  function Group(g: Grouping, lines: Lines): Calls
    decreases |lines|
  {
    if lines == [] then
      match Args(g)
      case None => Calls([], false)
      case Some(c) => Calls([c], true)
    else
      var line := lines[0];
      if |line| == 0 then Calls([], false)
      else if line[0] == "ID" then
        var before := if g.artId.None? then Some([]) else match Args(g)
          case None => None
          case Some(c) => Some([c]);
        match before
        case None => Calls([], false)
        case Some(pre) =>
          match IdOf(line)
          case None => Calls(pre, false)
          case Some(id) =>
            var rest := Group(Grouping(Some(id), Null, g.hi), lines[1..]);
            Calls(pre + rest.calls, rest.ok)
      else
        match ParseInt(line[0])
        case None => Calls([], false)
        case Some(s) =>
          if g.lo.Unbound? then Calls([], false)
          else Group(Grouping(g.artId, if g.lo.Null? then Val(s) else g.lo, Val(s)), lines[1..])
  }

  /** The state before the first line: nothing assigned but `art_id = None`. */
  const Start := Grouping(None, Unbound, Unbound)

  /** A data line whose `sen_idx` parses. */
  predicate DataLine(line: Line)
  {
    |line| > 0 && line[0] != "ID" && ParseInt(line[0]).Some?
  }

  function SenIdx(line: Line): int
    requires DataLine(line)
  {
    ParseInt(line[0]).value
  }

  /** One block of a well-formed annotation file: an `ID` line with an integer id and at
      least one data line. */
  datatype Block = Block(header: Line, data: Lines)

  predicate GoodBlock(b: Block)
  {
    |b.header| > 0 && b.header[0] == "ID" && IdOf(b.header).Some? &&
    |b.data| > 0 && forall k :: 0 <= k < |b.data| ==> DataLine(b.data[k])
  }

  function Flatten(blocks: seq<Block>): Lines
    decreases |blocks|
  {
    if blocks == [] then [] else [blocks[0].header] + blocks[0].data + Flatten(blocks[1..])
  }

  /** The call a block should produce: its id, its first and its last `sen_idx`. */
  function CallOf(b: Block): Call
    requires GoodBlock(b)
  {
    Call(IdOf(b.header), Some(SenIdx(b.data[0])), Some(SenIdx(b.data[|b.data| - 1])))
  }

  function CallsOf(blocks: seq<Block>): seq<Call>
    requires forall i :: 0 <= i < |blocks| ==> GoodBlock(blocks[i])
    decreases |blocks|
  {
    if blocks == [] then [] else [CallOf(blocks[0])] + CallsOf(blocks[1..])
  }

  /** Inside a block whose minimum is recorded, the data lines only move the maximum. */
  lemma {:induction false} GroupData(a: Option<int>, first: int, hi: Bound, data: Lines, rest: Lines)
    requires |data| > 0 && forall k :: 0 <= k < |data| ==> DataLine(data[k])
    ensures Group(Grouping(a, Val(first), hi), data + rest) ==
            Group(Grouping(a, Val(first), Val(SenIdx(data[|data| - 1]))), rest)
    decreases |data|
  {
    assert (data + rest)[0] == data[0] && (data + rest)[1..] == data[1..] + rest;
    if |data| > 1 {
      assert forall k :: 0 <= k < |data| - 1 ==> data[1..][k] == data[k + 1];
      GroupData(a, first, Val(SenIdx(data[0])), data[1..], rest);
    }
  }

  /** A block's data lines after its `ID` line record the first and the last `sen_idx`. */
  lemma GroupBlock(id: int, hi: Bound, data: Lines, rest: Lines)
    requires |data| > 0 && forall k :: 0 <= k < |data| ==> DataLine(data[k])
    ensures Group(Grouping(Some(id), Null, hi), data + rest) ==
            Group(Grouping(Some(id), Val(SenIdx(data[0])), Val(SenIdx(data[|data| - 1]))), rest)
  {
    assert (data + rest)[0] == data[0] && (data + rest)[1..] == data[1..] + rest;
    if |data| > 1 {
      assert forall k :: 0 <= k < |data| - 1 ==> data[1..][k] == data[k + 1];
      GroupData(Some(id), SenIdx(data[0]), Val(SenIdx(data[0])), data[1..], rest);
    }
  }

  /** The rest of the grouping loop once an `ID` line has passed on the block before it. */
  function AfterHeader(g: Grouping, line: Line, tail: Lines): Calls
  {
    match IdOf(line)
    case None => Calls([], false)
    case Some(id) => Group(Grouping(Some(id), Null, g.hi), tail)
  }

  /** One line of the grouping loop. */
  lemma GroupStep(g: Grouping, line: Line, tail: Lines)
    ensures |line| == 0 ==> Group(g, [line] + tail) == Calls([], false)
    ensures |line| > 0 && line[0] != "ID" ==>
              Group(g, [line] + tail) ==
                match ParseInt(line[0])
                case None => Calls([], false)
                case Some(s) =>
                  if g.lo.Unbound? then Calls([], false)
                  else Group(Grouping(g.artId, if g.lo.Null? then Val(s) else g.lo, Val(s)), tail)
    ensures |line| > 0 && line[0] == "ID" && g.artId.Some? && Args(g).None? ==> Group(g, [line] + tail) == Calls([], false)
    ensures |line| > 0 && line[0] == "ID" && !(g.artId.Some? && Args(g).None?) ==>
              var pre := if g.artId.None? then [] else [Args(g).value];
              Group(g, [line] + tail) == Calls(pre + AfterHeader(g, line, tail).calls, AfterHeader(g, line, tail).ok)
  {
    assert ([line] + tail)[0] == line && ([line] + tail)[1..] == tail;
  }

  /** What an `ID` line with an integer id does: the block before it (if any) is
      passed on, and the new block starts with no minimum recorded. */
  lemma GroupHeader(g: Grouping, header: Line, tail: Lines)
    requires |header| > 0 && header[0] == "ID" && IdOf(header).Some?
    ensures var rest := Group(Grouping(IdOf(header), Null, g.hi), tail);
            (g.artId.None? ==> Group(g, [header] + tail) == rest) &&
            (g.artId.Some? && Args(g).Some? ==>
               Group(g, [header] + tail) == Calls([Args(g).value] + rest.calls, rest.ok))
  {
    assert ([header] + tail)[0] == header && ([header] + tail)[1..] == tail;
  }

  lemma {:induction false} GroupFrom(g: Grouping, blocks: seq<Block>)
    requires g.artId.Some? && g.lo.Val? && g.hi.Val?
    requires forall i :: 0 <= i < |blocks| ==> GoodBlock(blocks[i])
    ensures Group(g, Flatten(blocks)) == Calls([Args(g).value] + CallsOf(blocks), true)
    decreases |blocks|
  {
    if blocks != [] {
      var b := blocks[0];
      var id := IdOf(b.header).value;
      var tail := b.data + Flatten(blocks[1..]);
      assert Flatten(blocks) == [b.header] + tail;
      GroupHeader(g, b.header, tail);
      GroupBlock(id, g.hi, b.data, Flatten(blocks[1..]));
      var next := Grouping(Some(id), Val(SenIdx(b.data[0])), Val(SenIdx(b.data[|b.data| - 1])));
      GroupFrom(next, blocks[1..]);
      assert Args(next).value == CallOf(b);
    }
  }

  /** On a file made of well-formed blocks, `conllize_file` calls `conllize_article` once
      per block, in file order and including the last block at the end of the file, each
      time with the block's id and its first and last `sen_idx`, and then ends normally. */
  lemma GroupBlocks(blocks: seq<Block>)
    requires |blocks| > 0 && forall i :: 0 <= i < |blocks| ==> GoodBlock(blocks[i])
    ensures Group(Start, Flatten(blocks)) == Calls(CallsOf(blocks), true)
  {
    var b := blocks[0];
    var id := IdOf(b.header).value;
    var tail := b.data + Flatten(blocks[1..]);
    assert Flatten(blocks) == [b.header] + tail;
    GroupHeader(Start, b.header, tail);
    GroupBlock(id, Unbound, b.data, Flatten(blocks[1..]));
    var next := Grouping(Some(id), Val(SenIdx(b.data[0])), Val(SenIdx(b.data[|b.data| - 1])));
    GroupFrom(next, blocks[1..]);
    assert Args(next).value == CallOf(b);
  }

  /** A block without data lines reaches `conllize_article` with `sen_idx_min = None`
      (or, first in the file, not at all), so that call cannot compute
      `sen_idx_max - sen_idx_min`; an empty file raises at the final call. */
  lemma NoDataNoBounds(id: int, hi: Bound, next: Line, rest: Lines)
    requires |next| > 0 && next[0] == "ID"
    ensures var r := Group(Grouping(Some(id), Null, hi), [next] + rest);
            !r.ok || (|r.calls| > 0 && r.calls[0].lo.None?)
    ensures !Group(Start, []).ok
  {
    assert ([next] + rest)[1..] == rest;
  }
}
