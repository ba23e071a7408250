/** Entity spans and the label resolver: for a token position, the labels of the
    spans of its sentence that contain it, or `O` when there are none. */
module Spans {
  import opened PyText

  /** `[begin, end, figer_type]` as stored in `segments`; `end` is inclusive. */
  datatype Span = Span(begin: int, end: int, entity: string)

  /** An annotation data line `<sen_idx> <begin> <end_exclusive> <men_type> <figer index>`
      once parsed: `end` already made inclusive and the entity type looked up. */
  datatype Record = Record(senIdx: int, begin: int, end: int, menType: int, entity: string)

  /** The five `int()` calls and the `figer_vocab` lookup of an annotation data line.
      `None` when any of them raises: fewer than five fields (IndexError), a field that
      is not an integer (ValueError) or an entity index missing from the vocabulary
      (KeyError). Fields after the fifth are ignored. */
  function ParseRecord(line: Line, figer: map<int, string>): Option<Record>
  {
    if |line| < 5 then None
    else match (ParseInt(line[0]), ParseInt(line[1]), ParseInt(line[2]), ParseInt(line[3]), ParseInt(line[4]))
      case (Some(s), Some(b), Some(e), Some(t), Some(f)) =>
        if f in figer then Some(Record(s, b, e - 1, t, figer[f])) else None
      case _ => None
  }

  function SpanOf(r: Record): Span
  {
    Span(r.begin, r.end, r.entity)
  }

  predicate Covers(s: Span, p: int)
  {
    s.begin <= p <= s.end
  }

  /** The labels the resolver's loop collects for position `p`: it walks the spans in
      stored order, takes the label of every span containing `p`, and breaks at the
      first span that does not contain `p` and starts after it. */
  function Scanned(spans: seq<Span>, p: int): seq<string>
    decreases |spans|
  {
    if spans == [] then []
    else if Covers(spans[0], p) then [spans[0].entity] + Scanned(spans[1..], p)
    else if p < spans[0].begin then []
    else Scanned(spans[1..], p)
  }

  /** The labels written after the word at position `p`: `O` when no span was found. */
  function TokenLabels(spans: seq<Span>, p: int): seq<string>
  {
    var found := Scanned(spans, p);
    if found == [] then ["O"] else found
  }

  /** Index of the first span that starts after `p` (or `|spans|`). */
  function Stop(spans: seq<Span>, p: int): (k: nat)
    ensures k <= |spans|
    ensures forall i :: 0 <= i < k ==> spans[i].begin <= p
    ensures k < |spans| ==> p < spans[k].begin
    decreases |spans|
  {
    if spans == [] || p < spans[0].begin then 0 else 1 + Stop(spans[1..], p)
  }

  /** The labels of all spans that contain `p`, in stored order (no early exit). */
  function Covering(spans: seq<Span>, p: int): seq<string>
    decreases |spans|
  {
    if spans == [] then []
    else (if Covers(spans[0], p) then [spans[0].entity] else []) + Covering(spans[1..], p)
  }

  /** The resolver sees exactly the spans before the first one starting after `p`, and
      of those it keeps every one that contains `p`, in stored order: several containing
      spans give several labels, and a span after the stopping point is never seen. */
  lemma {:induction false} ScannedIsCoveringPrefix(spans: seq<Span>, p: int)
    ensures Scanned(spans, p) == Covering(spans[..Stop(spans, p)], p)
    decreases |spans|
  {
    if spans != [] && spans[0].begin <= p {
      ScannedIsCoveringPrefix(spans[1..], p);
      assert spans[..Stop(spans, p)][1..] == spans[1..][..Stop(spans[1..], p)];
    }
  }

  predicate SortedByBegin(spans: seq<Span>)
  {
    forall i, j :: 0 <= i < j < |spans| ==> spans[i].begin <= spans[j].begin
  }

  /** In sorted spans whose first one starts after `p`, none contains `p`. */
  lemma {:induction false} CoveringSortedTail(spans: seq<Span>, p: int)
    requires SortedByBegin(spans)
    requires spans != [] ==> p < spans[0].begin
    ensures Covering(spans, p) == []
    decreases |spans|
  {
    if spans != [] {
      CoveringSortedTail(spans[1..], p);
    }
  }

  /** When the spans are sorted by their start, stopping early loses nothing: the
      resolver returns the labels of all containing spans. */
  lemma {:induction false} SortedScanSeesAll(spans: seq<Span>, p: int)
    requires SortedByBegin(spans)
    ensures Scanned(spans, p) == Covering(spans, p)
    decreases |spans|
  {
    if spans != [] {
      if p < spans[0].begin {
        CoveringSortedTail(spans, p);
      } else {
        SortedSuffix(spans, 1);
        SortedScanSeesAll(spans[1..], p);
        if !Covers(spans[0], p) {
          assert [] + Covering(spans[1..], p) == Covering(spans[1..], p);
        }
      }
    }
  }

  lemma SortedSuffix(spans: seq<Span>, k: nat)
    requires SortedByBegin(spans) && k <= |spans|
    ensures SortedByBegin(spans[k..])
  {
    forall i, j | 0 <= i < j < |spans| - k
      ensures spans[k..][i].begin <= spans[k..][j].begin
    {
      assert spans[k..][i] == spans[k + i] && spans[k..][j] == spans[k + j];
    }
  }

  /** A token that no span contains is labelled exactly `O`. */
  lemma UncoveredIsO(spans: seq<Span>, p: int)
    requires forall k :: 0 <= k < |spans| ==> !Covers(spans[k], p)
    ensures TokenLabels(spans, p) == ["O"]
  {
    ScannedIsCoveringPrefix(spans, p);
    NoneCovering(spans[..Stop(spans, p)], p);
  }

  lemma {:induction false} NoneCovering(spans: seq<Span>, p: int)
    requires forall k :: 0 <= k < |spans| ==> !Covers(spans[k], p)
    ensures Covering(spans, p) == []
    decreases |spans|
  {
    if spans != [] {
      NoneCovering(spans[1..], p);
    }
  }

  /** Sorted and pairwise non-overlapping, as the corpus is presumed to be. */
  predicate Disjoint(spans: seq<Span>)
  {
    SortedByBegin(spans) && forall i, j :: 0 <= i < j < |spans| ==> spans[i].end < spans[j].begin
  }

  lemma {:induction false} CoveringDisjoint(spans: seq<Span>, p: int, k: nat)
    requires Disjoint(spans)
    requires k < |spans| && Covers(spans[k], p)
    ensures Covering(spans, p) == [spans[k].entity]
    decreases |spans|
  {
    if k == 0 {
      NoneCovering(spans[1..], p);
    } else {
      CoveringDisjoint(spans[1..], p, k - 1);
    }
  }

  /** In a sentence whose spans are sorted and non-overlapping, every position of a
      span `[b, e]` is labelled with that span's entity type and nothing else. */
  lemma CoveredByOne(spans: seq<Span>, p: int, k: nat)
    requires Disjoint(spans)
    requires k < |spans| && Covers(spans[k], p)
    ensures TokenLabels(spans, p) == [spans[k].entity]
  {
    SortedScanSeesAll(spans, p);
    CoveringDisjoint(spans, p, k);
  }

  /** The resolver loop of the writer, with its `have_ne` flag and `break`. */
  method ResolveLabels(spans: seq<Span>, p: int) returns (labels: seq<string>)
    ensures labels == TokenLabels(spans, p)
  {
    labels := [];
    var haveNe := false;
    var i := 0;
    while i < |spans|
      invariant 0 <= i <= |spans|
      invariant labels + Scanned(spans[i..], p) == Scanned(spans, p)
      invariant haveNe <==> labels != []
    {
      var s := spans[i];
      assert spans[i..][1..] == spans[i + 1..];
      if s.begin <= p <= s.end {
        haveNe := true;
        labels := labels + [s.entity];
      } else if p < s.begin {
        assert labels == Scanned(spans, p);
        break;
      }
      i := i + 1;
    }
    if !haveNe {
      labels := labels + ["O"];
    }
  }
}
