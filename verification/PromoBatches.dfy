/** Generating a batch of promo codes from a stream of random draws, by rejection. */
module PromoBatches {
  import opened Options
  import opened PromoProtocol

  const BATCH_MULTIPLE := 500
  const BATCH_MAX := 100_000

  /** `Starved`: the draws given ran out before the batch was full; the program would draw on. */
  datatype Generated = BatchSizeInvalid | Starved | Codes(plaintext: seq<string>, hashes: seq<Hash>)

  ghost predicate AllDifferent(s: seq<Hash>) {
    forall i, j :: 0 <= i < j < |s| ==> s[i] != s[j]
  }

  /** The draws of `draws` that are not repeats of an earlier one's hash. */
  function Kept(draws: seq<string>, hash: string -> Hash): seq<string> {
    if draws == [] then []
    else
      var last := draws[|draws| - 1];
      var kept := Kept(draws[..|draws| - 1], hash);
      if hash(last) in Hashes(kept, hash) then kept else kept + [last]
  }

  function Hashes(codes: seq<string>, hash: string -> Hash): (r: seq<Hash>)
    ensures |r| == |codes| && forall i :: 0 <= i < |r| ==> r[i] == hash(codes[i])
  {
    seq(|codes|, i requires 0 <= i < |codes| => hash(codes[i]))
  }

  /** `generate_batch`: the loop over the draws. A full batch has exactly `size` codes, with hashes all different,
      and skips only draws whose hash it already has. */
  method GenerateBatch(size: int, draws: seq<string>, hash: string -> Hash) returns (g: Generated)
    ensures g == BatchSizeInvalid <==> size <= 0 || size % 500 != 0 || size > 100_000
    ensures g.Codes? ==> |g.plaintext| == size && g.hashes == Hashes(g.plaintext, hash) && AllDifferent(g.hashes)
    ensures g.Codes? ==> exists n :: 0 <= n <= |draws| && g.plaintext == Kept(draws[..n], hash)
    ensures g == Starved ==> |Kept(draws, hash)| < size
  {
    if size <= 0 || size % BATCH_MULTIPLE != 0 { return BatchSizeInvalid; }
    if size > BATCH_MAX { return BatchSizeInvalid; }
    var plaintext: seq<string> := [];
    var seen: set<Hash> := {};
    var n := 0;
    while |plaintext| < size && n < |draws|
      invariant 0 <= n <= |draws| && |plaintext| <= size
      invariant plaintext == Kept(draws[..n], hash)
      invariant forall h :: h in seen <==> h in Hashes(plaintext, hash)
      invariant AllDifferent(Hashes(plaintext, hash))
    {
      var code := draws[n];
      var h := hash(code);
      assert draws[..n + 1][..n] == draws[..n];
      n := n + 1;
      if h !in seen {
        assert Hashes(plaintext + [code], hash) == Hashes(plaintext, hash) + [h];
        seen := seen + {h};
        plaintext := plaintext + [code];
      }
    }
    if |plaintext| < size {
      assert draws[..n] == draws;
      return Starved;
    }
    return Codes(plaintext, Hashes(plaintext, hash));
  }

  /** The rows of a full batch. */
  function RowsOf(batch: BatchId, ids: seq<CodeId>, hashes: seq<Hash>, max: int): Codes
    requires |ids| == |hashes| && forall i, j :: 0 <= i < j < |ids| ==> ids[i] != ids[j]
  {
    map i | 0 <= i < |ids| :: ids[i] := Code(batch, hashes[i], 0, max, Active, None)
  }

  /** A full batch with fresh ids and hashes can be inserted. */
  lemma {:induction false} FullBatchesFit(s: State, batch: BatchId, header: Batch, ids: seq<CodeId>,
                                          hashes: seq<Hash>, max: int)
    requires |ids| == |hashes| && AllDifferent(hashes) && max >= 1 && forall i, j :: 0 <= i < j < |ids| ==>
      ids[i] != ids[j]
    requires batch !in s.batches && !header.disabled && forall i :: 0 <= i < |ids| ==> ids[i] !in s.codes
    requires forall i, c :: 0 <= i < |ids| && c in s.codes ==> hashes[i] != s.codes[c].hash
    ensures StepGenerate(s, batch, header, RowsOf(batch, ids, hashes, max)).Some?
  {
    var rows := RowsOf(batch, ids, hashes, max);
    forall c | c in rows
      ensures exists i :: 0 <= i < |ids| && ids[i] == c && rows[c] == Code(batch, hashes[i], 0, max, Active, None)
    {}
    forall a, b | a in rows && b in rows && a != b ensures rows[a].hash != rows[b].hash {
      var i :| 0 <= i < |ids| && ids[i] == a && rows[a] == Code(batch, hashes[i], 0, max, Active, None);
      var j :| 0 <= j < |ids| && ids[j] == b && rows[b] == Code(batch, hashes[j], 0, max, Active, None);
      assert if i < j then hashes[i] != hashes[j] else hashes[j] != hashes[i];
    }
  }
}
