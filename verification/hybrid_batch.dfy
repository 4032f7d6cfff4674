/** The hybrid training batch (`ppo_batch` in MBPPO, `sac_batch` in MBPO; the
    two are the same code): a fraction `real_ratio` of the rows comes from the
    environment buffer, the rest from the model buffer, concatenated real rows
    first under every key. The buffers' samplers are functions from a row
    count to a batch, with their random draws folded in. */
module HybridBatch {
  import opened Numerics

  /** One field of a sample: a 2-D tensor of `rows`, each `width` wide. The
      width is kept apart from the rows so that an empty sample still has one. */
  datatype Field = Field(rows: seq<seq<real>>, width: nat)

  /** A sampled batch: for each key ("observations", "actions", ...), its field. */
  type Batch = map<string, Field>

  /** `MissingKey`: `B_img[k]` for a key `k` of the real batch that the model
      batch lacks (Python's `KeyError`). `WidthMismatch`: `torch.cat` along
      dimension 0 of two tensors of different widths (a `RuntimeError`). */
  datatype BatchError = MissingKey | WidthMismatch

  /** `batch_size_real = int(real_ratio * batch_size)` and
      `batch_size_img = batch_size - batch_size_real`. */
  function SplitCounts(realRatio: real, batchSize: int): (counts: (int, int))
    ensures counts.0 + counts.1 == batchSize
    ensures 0.0 <= realRatio * batchSize as real ==>
              counts.0 as real <= realRatio * batchSize as real < counts.0 as real + 1.0
    ensures 0.0 <= realRatio <= 1.0 && 0 <= batchSize ==> 0 <= counts.0 <= batchSize && 0 <= counts.1
    ensures realRatio == 1.0 ==> counts.1 == 0
  {
    var nReal := Trunc(realRatio * batchSize as real);
    assert 0.0 <= realRatio <= 1.0 && 0 <= batchSize ==>
             0.0 <= realRatio * batchSize as real <= batchSize as real by {
      if 0.0 <= realRatio <= 1.0 && 0 <= batchSize {
        ScaledWithin(realRatio, batchSize as real);
      }
    }
    (nReal, batchSize - nReal)
  }

  /** Every key of the environment sample is also a key of the model sample. */
  predicate KeysCovered(fromEnv: Batch, fromModel: Batch) {
    fromEnv.Keys <= fromModel.Keys
  }

  /** Under every key of the environment sample, both samples have the same width. */
  predicate WidthsAgree(fromEnv: Batch, fromModel: Batch)
    requires KeysCovered(fromEnv, fromModel)
  {
    forall k :: k in fromEnv ==> fromEnv[k].width == fromModel[k].width
  }

  /** Every field's rows are as wide as its width says. */
  predicate Shaped(b: Batch) {
    forall k :: k in b ==> Width(b[k].rows, b[k].width)
  }

  /** `torch.cat((a, b), dim=0)` of two tensors of the same width. */
  function Cat(a: Field, b: Field): (c: Field)
    requires a.width == b.width
    ensures c.width == a.width && |c.rows| == |a.rows| + |b.rows|
    ensures c.rows[..|a.rows|] == a.rows && c.rows[|a.rows|..] == b.rows
    ensures Width(a.rows, a.width) && Width(b.rows, b.width) ==> Width(c.rows, c.width)
  {
    Field(a.rows + b.rows, a.width)
  }

  /** The mixed batch: the real sample alone when the synthetic count is not
      positive, otherwise both samples concatenated key by key. A missing key
      is reported before a width mismatch. */
  function MixedBatch(realRatio: real, batchSize: int, sampleReal: int -> Batch, sampleModel: int -> Batch)
    : (r: Result<Batch, BatchError>)
    ensures var (nReal, nImg) := SplitCounts(realRatio, batchSize);
            r.Ok? ==> r.value.Keys == sampleReal(nReal).Keys
    ensures var (nReal, nImg) := SplitCounts(realRatio, batchSize);
            nImg <= 0 ==> r == Ok(sampleReal(nReal))
    ensures var (nReal, nImg) := SplitCounts(realRatio, batchSize);
            nImg > 0 ==> (r == Err(MissingKey) <==> !KeysCovered(sampleReal(nReal), sampleModel(nImg)))
    ensures var (nReal, nImg) := SplitCounts(realRatio, batchSize);
            nImg > 0 ==> (r.Ok? <==> KeysCovered(sampleReal(nReal), sampleModel(nImg))
                                     && WidthsAgree(sampleReal(nReal), sampleModel(nImg)))
    ensures var (nReal, nImg) := SplitCounts(realRatio, batchSize);
            r.Ok? ==> forall k :: k in r.value ==> r.value[k].width == sampleReal(nReal)[k].width
    ensures var (nReal, nImg) := SplitCounts(realRatio, batchSize);
            r.Ok? && Shaped(sampleReal(nReal)) && (nImg > 0 ==> Shaped(sampleModel(nImg))) ==> Shaped(r.value)
  {
    var (nReal, nImg) := SplitCounts(realRatio, batchSize);
    var bReal := sampleReal(nReal);
    if nImg > 0 then
      var bImg := sampleModel(nImg);
      if !KeysCovered(bReal, bImg) then Err(MissingKey)
      else if !WidthsAgree(bReal, bImg) then Err(WidthMismatch)
      else Ok(map k | k in bReal :: Cat(bReal[k], bImg[k]))
    else Ok(bReal)
  }

  /** Every field holds `n` rows. */
  predicate Rows(b: Batch, n: int) {
    forall k :: k in b ==> |b[k].rows| == n
  }

  /** When the samplers return the requested number of rows, every field of
      the mixed batch has `batch_size` rows: the `floor(real_ratio *
      batch_size)` real rows first, then the synthetic ones. */
  lemma RealRowsFirst(realRatio: real, batchSize: int, sampleReal: int -> Batch, sampleModel: int -> Batch, k: string)
    requires 0.0 <= realRatio <= 1.0 && 0 <= batchSize
    requires var (nReal, nImg) := SplitCounts(realRatio, batchSize);
             Rows(sampleReal(nReal), nReal) && Rows(sampleModel(nImg), nImg)
    requires MixedBatch(realRatio, batchSize, sampleReal, sampleModel).Ok?
    requires k in sampleReal(SplitCounts(realRatio, batchSize).0)
    ensures var (nReal, nImg) := SplitCounts(realRatio, batchSize);
            var col := MixedBatch(realRatio, batchSize, sampleReal, sampleModel).value[k].rows;
            && |col| == batchSize
            && col[..nReal] == sampleReal(nReal)[k].rows
            && (nImg > 0 ==> col[nReal..] == sampleModel(nImg)[k].rows)
  {
    var (nReal, nImg) := SplitCounts(realRatio, batchSize);
    var col := MixedBatch(realRatio, batchSize, sampleReal, sampleModel).value[k].rows;
    if nImg > 0 {
      assert col == Cat(sampleReal(nReal)[k], sampleModel(nImg)[k]).rows;
    } else {
      assert nReal == batchSize;
      assert col == sampleReal(nReal)[k].rows;
    }
  }

  /** With no synthetic rows to draw, the model buffer is never consulted:
      the result is the same whatever the model sampler returns. */
  lemma ModelBufferUntouched(realRatio: real, batchSize: int, sampleReal: int -> Batch, m1: int -> Batch, m2: int -> Batch)
    requires SplitCounts(realRatio, batchSize).1 <= 0
    ensures MixedBatch(realRatio, batchSize, sampleReal, m1) == MixedBatch(realRatio, batchSize, sampleReal, m2)
  {
  }

  /** The configured ratio 0.05 with batch 256 takes 12 real and 244 synthetic rows. */
  lemma ExampleSplit()
    ensures SplitCounts(0.05, 256) == (12, 244)
  {
    assert 0.05 * 256.0 == 12.8;
  }

  /** Concatenating a one-column real sample with a two-column synthetic one
      fails, as `torch.cat` does. */
  lemma ExampleWidthMismatch()
    ensures MixedBatch(0.5, 2, n => map["obs" := Field([[1.0]], 1)],
                       n => map["obs" := Field([[1.0, 2.0]], 2)]) == Err(WidthMismatch)
  {
    var fromEnv: int -> Batch := n => map["obs" := Field([[1.0]], 1)];
    var fromModel: int -> Batch := n => map["obs" := Field([[1.0, 2.0]], 2)];
    assert SplitCounts(0.5, 2) == (1, 1) by { assert 0.5 * 2 as real == 1.0; }
    assert KeysCovered(fromEnv(1), fromModel(1));
    assert fromEnv(1)["obs"].width != fromModel(1)["obs"].width;
    assert !WidthsAgree(fromEnv(1), fromModel(1));
  }
}
