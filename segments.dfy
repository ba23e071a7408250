/** Span collection: `segments` holds one list of spans per sentence of the article,
    and each annotation data line with `men_type == 0` appends its span to the list of
    its sentence. */
module Segments {
  import opened PyText
  import opened Spans

  type Buckets = seq<seq<Span>>

  /** `segments = [None] * n` followed by `segments[i] = []` for every `i`: `n` separate
      empty lists, and none at all when `n <= 0`. */
  function Empties(n: int): (segs: Buckets)
    ensures |segs| == if n > 0 then n else 0
    ensures forall j :: 0 <= j < |segs| ==> segs[j] == []
    decreases n
  {
    if n <= 0 then [] else Empties(n - 1) + [[]]
  }

  /** The allocation loop itself. */
  method NewSegments(n: int) returns (segs: Buckets)
    ensures segs == Empties(n)
  {
    var len := if n > 0 then n else 0;
    segs := [];
    var i := 0;
    while i < len
      invariant 0 <= i <= len
      invariant segs == Empties(i)
    {
      segs := segs + [[]];
      i := i + 1;
    }
  }

  /** What one annotation data line does to `segments`. `skip` says whether a line
      that fails to parse is skipped (`try ... except: continue`) or raises; a parsed
      record with `men_type == 0` goes to `segments[sen_idx - shift]` with Python's
      indexing, which raises when the index is out of range. `None`: an exception
      escapes. */
  function Apply(figer: map<int, string>, skip: bool, shift: int, segs: Buckets, line: Line): Option<Buckets>
  {
    match ParseRecord(line, figer)
    case None => if skip then Some(segs) else None
    case Some(r) =>
      if r.menType != 0 then Some(segs)
      else match PyIndex(|segs|, r.senIdx - shift)
        case None => None
        case Some(j) => Some(segs[j := segs[j] + [SpanOf(r)]])
  }

  /** The data lines of one article applied in file order. */
  function ApplyAll(figer: map<int, string>, skip: bool, shift: int, segs: Buckets, block: Lines): Option<Buckets>
    decreases |block|
  {
    if block == [] then Some(segs)
    else match Apply(figer, skip, shift, segs, block[0])
      case None => None
      case Some(next) => ApplyAll(figer, skip, shift, next, block[1..])
  }

  /** The line is handled without an exception. */
  predicate Fits(figer: map<int, string>, skip: bool, n: nat, shift: int, line: Line)
  {
    match ParseRecord(line, figer)
    case None => skip
    case Some(r) => r.menType == 0 ==> PyIndex(n, r.senIdx - shift).Some?
  }

  /** The spans of `block` that land in list `j`: the named-entity records whose
      sentence index selects list `j`, in file order. */
  function SpansFor(figer: map<int, string>, n: nat, shift: int, block: Lines, j: nat): seq<Span>
    decreases |block|
  {
    if block == [] then []
    else
      var here := match ParseRecord(block[0], figer)
        case Some(r) => if r.menType == 0 && PyIndex(n, r.senIdx - shift) == Some(j) then [SpanOf(r)] else []
        case None => [];
      here + SpansFor(figer, n, shift, block[1..], j)
  }

  /** Applying a block raises exactly when one of its lines does not fit; otherwise
      the number of lists is unchanged and list `j` has gained, in file order, the
      spans of the block's named-entity records for sentence `j`. Malformed (skipped)
      lines and records of other mention types change nothing. */
  lemma {:induction false} ApplyAllBuckets(figer: map<int, string>, skip: bool, shift: int, segs: Buckets, block: Lines)
    ensures ApplyAll(figer, skip, shift, segs, block).Some? <==>
              forall k :: 0 <= k < |block| ==> Fits(figer, skip, |segs|, shift, block[k])
    ensures ApplyAll(figer, skip, shift, segs, block).Some? ==>
              var res := ApplyAll(figer, skip, shift, segs, block).value;
              |res| == |segs| &&
              forall j :: 0 <= j < |segs| ==> res[j] == segs[j] + SpansFor(figer, |segs|, shift, block, j)
    decreases |block|
  {
    if block != [] {
      var step := Apply(figer, skip, shift, segs, block[0]);
      assert step.Some? <==> Fits(figer, skip, |segs|, shift, block[0]);
      if step.Some? {
        var next := step.value;
        ApplyAllBuckets(figer, skip, shift, next, block[1..]);
        assert forall k :: 1 <= k < |block| ==> block[k] == block[1..][k - 1];
        if ApplyAll(figer, skip, shift, segs, block).Some? {
          var res := ApplyAll(figer, skip, shift, segs, block).value;
          forall j | 0 <= j < |segs|
            ensures res[j] == segs[j] + SpansFor(figer, |segs|, shift, block, j)
          {
            var rest := SpansFor(figer, |segs|, shift, block[1..], j);
            assert res[j] == next[j] + rest;
          }
        } else {
          var k :| 1 <= k < |block| && !Fits(figer, skip, |segs|, shift, block[k]);
        }
      }
    }
  }
}
