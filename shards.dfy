/** The directory of document shards `Documents/0`, `Documents/1`, ... and what a
    scan of one shard learns: the article ids of its `ID` lines. */
module Shards {
  import opened PyText

  /** Shard `i` of the directory: `fs[i]` is `None` when opening `Documents/<i>` fails;
      every shard number outside `0 .. |fs|-1` fails to open. */
  type Directory = seq<Option<Lines>>

  function Shard(fs: Directory, i: int): Option<Lines>
  {
    if 0 <= i < |fs| then fs[i] else None
  }

  /** The article ids a scan of a shard meets, in order: every `ID <n>` line up to the
      first line whose handling raises (a line without fields, or an `ID` line whose
      second field is missing or not an integer); the `except: pass` around the scan
      abandons the rest of the shard there. */
  function ShardIds(lines: Lines): seq<int>
    decreases |lines|
  {
    if lines == [] || |lines[0]| == 0 then []
    else if lines[0][0] != "ID" then ShardIds(lines[1..])
    else match IdOf(lines[0])
      case None => []
      case Some(id) => [id] + ShardIds(lines[1..])
  }

  /** Shard `i` can be opened and its scan meets `ID id`. */
  predicate Contains(fs: Directory, i: int, id: int)
  {
    Shard(fs, i).Some? && id in ShardIds(Shard(fs, i).value)
  }

  /** Every id of `ids` mapped to the shard number `v`. */
  function IdMap(ids: seq<int>, v: int): map<int, int>
  {
    map id | id in ids :: v
  }

  /** `art2doc` after the index has scanned shards `0 .. n-1`, starting from `m`:
      each `ID` line read overwrites the entry of its article with the current shard. */
  function Scan(m: map<int, int>, fs: Directory, n: nat): map<int, int>
    decreases n
  {
    if n == 0 then m
    else
      var prev := Scan(m, fs, n - 1);
      match Shard(fs, n - 1)
      case None => prev
      case Some(lines) => prev + IdMap(ShardIds(lines), n - 1)
  }

  /** After scanning shards `0 .. n-1`, an article has an entry exactly when it had one
      before or some scanned shard contains it; the entry is then the highest-numbered
      shard containing it (later shards overwrite earlier ones), and an article that no
      scanned shard contains keeps its old entry. */
  lemma {:induction false} ScanLastWins(m: map<int, int>, fs: Directory, n: nat, id: int)
    ensures id in Scan(m, fs, n) <==> id in m || exists i :: 0 <= i < n && Contains(fs, i, id)
    ensures forall i :: 0 <= i < n && Contains(fs, i, id) ==>
              i <= Scan(m, fs, n)[id] < n && Contains(fs, Scan(m, fs, n)[id], id)
    ensures (forall i :: 0 <= i < n ==> !Contains(fs, i, id)) && id in m ==>
              Scan(m, fs, n)[id] == m[id]
    decreases n
  {
    if n > 0 {
      ScanLastWins(m, fs, n - 1, id);
      if Contains(fs, n - 1, id) {
        assert Scan(m, fs, n)[id] == n - 1;
      }
    }
  }
}
