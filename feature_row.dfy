/**
 * The one-row frame `predictor.py` feeds the classifier: `_create_df` lays an audio-features
 * record out as 25 named cells in a fixed order (11 raw descriptors, 11 key indicators and 3
 * time-signature indicators), and `_preprocess_df` rewrites, in place, the ten numerical cells:
 * `log(x + 1)` on four of them, then the fitted scaler over all ten.
 *
 * `log` and the scaler's `transform` are parameters: the model fixes which cells they see
 * and where their results go, not their arithmetic.
 */
module FeatureRow {
  import opened SpotifyValues

  /** The column names of the frame, in the order the classifier and scaler were fitted with. */
  const Columns: seq<string> := [
    "danceability", "energy", "loudness", "mode", "speechiness", "acousticness",
    "instrumentalness", "liveness", "valence", "tempo", "duration_ms",
    "key_1", "key_2", "key_3", "key_4", "key_5", "key_6", "key_7", "key_8", "key_9", "key_10", "key_11",
    "time_signature_3", "time_signature_4", "time_signature_5"]

  /** The number of cells in a row. */
  const Width: nat := 25

  /** How many leading columns copy a field of the record unchanged. */
  const RawCount: nat := 11

  /** The position of the indicator `key_k`. */
  function KeyColumn(k: int): nat
    requires 1 <= k <= 11
  {
    RawCount + k - 1
  }

  /** The position of the indicator `time_signature_t`. */
  function TimeSignatureColumn(t: int): nat
    requires 3 <= t <= 5
  {
    RawCount + 11 + t - 3
  }

  /** A one-hot cell: 1 when the category matches, 0 otherwise. */
  function Indicator(b: bool): real {
    if b then 1.0 else 0.0
  }

  /** The decimal digits of a number, as they appear in the indicator column names. */
  function Decimal(n: nat): string {
    if n < 10 then ["0123456789"[n]] else Decimal(n / 10) + ["0123456789"[n % 10]]
  }

  /** Every column has its own name, and the indicator names carry the category they test. */
  lemma ColumnNames()
    ensures |Columns| == Width
    ensures forall i, j :: 0 <= i < j < Width ==> Columns[i] != Columns[j]
    ensures forall k :: 1 <= k <= 11 ==> Columns[KeyColumn(k)] == "key_" + Decimal(k)
    ensures forall t :: 3 <= t <= 5 ==> Columns[TimeSignatureColumn(t)] == "time_signature_" + Decimal(t)
  {
    assert Decimal(10) == "10" && Decimal(11) == "11";
  }

  /**
   * `_create_df`: the record's eleven raw fields (mode included, not one-hot encoded) in
   * column order, then `key_1 .. key_11` and `time_signature_3 .. time_signature_5`.
   */
  function CreateRow(features: AudioFeatures): (row: seq<real>)
    ensures |row| == Width
    ensures row[..RawCount] == [
      features.danceability, features.energy, features.loudness, features.mode as real,
      features.speechiness, features.acousticness, features.instrumentalness, features.liveness,
      features.valence, features.tempo, features.durationMs as real]
    ensures forall k :: 1 <= k <= 11 ==> (row[KeyColumn(k)] == 1.0 <==> features.key == k)
    ensures forall t :: 3 <= t <= 5 ==> (row[TimeSignatureColumn(t)] == 1.0 <==> features.timeSignature == t)
    ensures forall i :: RawCount <= i < Width ==> row[i] == 0.0 || row[i] == 1.0
  {
    var raw := [features.danceability, features.energy, features.loudness, features.mode as real,
                features.speechiness, features.acousticness, features.instrumentalness, features.liveness,
                features.valence, features.tempo, features.durationMs as real];
    var keys := seq(11, i => Indicator(features.key == i + 1));
    var signatures := seq(3, i => Indicator(features.timeSignature == i + 3));
    var row := raw + keys + signatures;
    assert row[..RawCount] == raw;
    assert forall i :: RawCount <= i < RawCount + 11 ==> row[i] == Indicator(features.key == i - RawCount + 1);
    assert forall i :: RawCount + 11 <= i < Width ==> row[i] == Indicator(features.timeSignature == i - RawCount - 8);
    row
  }

  /** The sum of the cells `row[lo..hi]`. */
  function SumCells(row: seq<real>, lo: nat, hi: nat): real
    requires lo <= hi <= |row|
    decreases hi - lo
  {
    if lo == hi then 0.0 else row[lo] + SumCells(row, lo + 1, hi)
  }

  /** A run of 0/1 cells in which only `hot` may be 1 sums to the value of that one cell. */
  lemma {:induction false} SumOfOneHot(row: seq<real>, lo: nat, hi: nat, hot: int)
    requires lo <= hi <= |row|
    requires forall i :: lo <= i < hi && i != hot ==> row[i] == 0.0
    ensures SumCells(row, lo, hi) == if lo <= hot < hi then row[hot] else 0.0
    decreases hi - lo
  {
    if lo < hi {
      SumOfOneHot(row, lo + 1, hi, hot);
    }
  }

  /**
   * The key group is one-hot: exactly one indicator is set when the key is 1..11, none for
   * any other key (0, the baseline, or -1 for an undetected key).
   */
  lemma KeyGroupOneHot(features: AudioFeatures)
    ensures SumCells(CreateRow(features), KeyColumn(1), KeyColumn(11) + 1)
            == if 1 <= features.key <= 11 then 1.0 else 0.0
    ensures forall i, j :: KeyColumn(1) <= i < j <= KeyColumn(11) ==>
              !(CreateRow(features)[i] == 1.0 && CreateRow(features)[j] == 1.0)
  {
    var row := CreateRow(features);
    var hot := RawCount + features.key - 1;
    forall i | KeyColumn(1) <= i <= KeyColumn(11) && i != hot
      ensures row[i] == 0.0
    {
      assert row[KeyColumn(i - RawCount + 1)] != 1.0;
    }
    SumOfOneHot(row, KeyColumn(1), KeyColumn(11) + 1, hot);
    if 1 <= features.key <= 11 {
      assert row[KeyColumn(features.key)] == 1.0;
    }
  }

  /**
   * The time-signature group is one-hot: one indicator for 3, 4 or 5, and none, without any
   * error, for a signature outside that range.
   */
  lemma TimeSignatureGroupOneHot(features: AudioFeatures)
    ensures SumCells(CreateRow(features), TimeSignatureColumn(3), TimeSignatureColumn(5) + 1)
            == if 3 <= features.timeSignature <= 5 then 1.0 else 0.0
    ensures forall i, j :: TimeSignatureColumn(3) <= i < j <= TimeSignatureColumn(5) ==>
              !(CreateRow(features)[i] == 1.0 && CreateRow(features)[j] == 1.0)
  {
    var row := CreateRow(features);
    var hot := RawCount + 11 + features.timeSignature - 3;
    forall i | TimeSignatureColumn(3) <= i <= TimeSignatureColumn(5) && i != hot
      ensures row[i] == 0.0
    {
      assert row[TimeSignatureColumn(i - RawCount - 11 + 3)] != 1.0;
    }
    SumOfOneHot(row, TimeSignatureColumn(3), TimeSignatureColumn(5) + 1, hot);
    if 3 <= features.timeSignature <= 5 {
      assert row[TimeSignatureColumn(features.timeSignature)] == 1.0;
    }
  }

  /** Key 0 is the baseline: every key indicator is 0. Key 5 sets `key_5` and nothing else. */
  lemma KeyExamples(features: AudioFeatures)
    ensures features.key == 0 ==> forall i :: KeyColumn(1) <= i <= KeyColumn(11) ==> CreateRow(features)[i] == 0.0
    ensures features.key == 5 ==> forall i :: KeyColumn(1) <= i <= KeyColumn(11) ==>
              CreateRow(features)[i] == Indicator(i == KeyColumn(5))
  {
  }

  // ---------------------------------------------------------------------------
  // Preprocessing
  // ---------------------------------------------------------------------------

  /** The numerical columns handed to the scaler, by name and in the order they are listed. */
  const NumericalNames: seq<string> := [
    "danceability", "energy", "loudness", "speechiness", "acousticness", "instrumentalness",
    "liveness", "valence", "tempo", "duration_ms"]

  /** How many columns the scaler sees. */
  const NumericalCount: nat := 10

  /** The position in the row of the `j`-th numerical column: every raw column except `mode`. */
  function NumericalColumn(j: nat): (c: nat)
    requires j < NumericalCount
    ensures c < RawCount && c != 3
  {
    if j < 3 then j else j + 1
  }

  /** Whether cell `c` is one of the numerical columns, and which one. */
  predicate IsNumerical(c: nat) {
    c < RawCount && c != 3
  }

  function NumericalIndex(c: nat): (j: nat)
    requires IsNumerical(c)
    ensures j < NumericalCount && NumericalColumn(j) == c
  {
    if c < 3 then c else c - 1
  }

  /** The four skewed columns that go through `log(x + 1)`: speechiness, instrumentalness, liveness, duration_ms. */
  predicate IsLogged(c: nat) {
    c == 4 || c == 6 || c == 7 || c == 10
  }

  /** The positions agree with the names: numerical column `j` is named `NumericalNames[j]`. */
  lemma NumericalColumnsByName()
    ensures forall j :: 0 <= j < NumericalCount ==> Columns[NumericalColumn(j)] == NumericalNames[j]
    ensures forall c: nat :: c < Width ==>
      (IsLogged(c) <==> Columns[c] in {"duration_ms", "instrumentalness", "liveness", "speechiness"})
    ensures forall c: nat :: c < Width ==> (IsNumerical(c) <==> Columns[c] in NumericalNames)
  {
  }

  /** The scaler's `transform`: ten numbers in, ten numbers out. */
  type Scaler = seq<real> -> seq<real>

  ghost predicate PreservesLength(scaler: Scaler) {
    forall v :: |scaler(v)| == |v|
  }

  /** What the scaler is given: the numerical cells, each of the four skewed ones as `log(x + 1)`. */
  function ScalerInput(row: seq<real>, log: real -> real): (v: seq<real>)
    requires |row| == Width
    ensures |v| == NumericalCount
    ensures forall j :: 0 <= j < NumericalCount ==>
      v[j] == if IsLogged(NumericalColumn(j)) then log(row[NumericalColumn(j)] + 1.0)
              else row[NumericalColumn(j)]
  {
    [row[0], row[1], row[2], log(row[4] + 1.0), row[5], log(row[6] + 1.0), log(row[7] + 1.0),
     row[8], row[9], log(row[10] + 1.0)]
  }

  /**
   * `_preprocess_df`: the ten numerical cells receive the scaler's output for them; `mode`,
   * the key indicators and the time-signature indicators keep their values and places.
   */
  function Preprocessed(row: seq<real>, log: real -> real, scaler: Scaler): (out: seq<real>)
    requires |row| == Width
    requires PreservesLength(scaler)
    ensures |out| == Width
    ensures forall c: nat :: c < Width && !IsNumerical(c) ==> out[c] == row[c]
    ensures forall j :: 0 <= j < NumericalCount ==>
      out[NumericalColumn(j)] == scaler(ScalerInput(row, log))[j]
  {
    var scaled := scaler(ScalerInput(row, log));
    seq(Width, c requires 0 <= c < Width => if IsNumerical(c) then scaled[NumericalIndex(c)] else row[c])
  }

  /** The cells `_preprocess_df` writes `log(x + 1)` into before scaling. */
  function LogStep(row: seq<real>, log: real -> real): (out: seq<real>)
    requires |row| == Width
    ensures |out| == Width
    ensures forall c :: 0 <= c < Width ==> out[c] == if IsLogged(c) then log(row[c] + 1.0) else row[c]
  {
    row[10 := log(row[10] + 1.0)][6 := log(row[6] + 1.0)][7 := log(row[7] + 1.0)][4 := log(row[4] + 1.0)]
  }

  /**
   * `_preprocess_df` on the frame, in place: the four log columns are overwritten first, then
   * the numerical columns are selected, scaled together, and written back.
   */
  method PreprocessDf(df: array<real>, log: real -> real, scaler: Scaler)
    requires df.Length == Width
    requires PreservesLength(scaler)
    modifies df
    ensures df[..] == Preprocessed(old(df[..]), log, scaler)
  {
    ghost var row := df[..];
    df[10] := log(df[10] + 1.0);
    df[6] := log(df[6] + 1.0);
    df[7] := log(df[7] + 1.0);
    df[4] := log(df[4] + 1.0);
    assert df[..] == LogStep(row, log);
    var selected := [];
    for j := 0 to NumericalCount
      invariant selected == ScalerInput(row, log)[..j]
    {
      selected := selected + [df[NumericalColumn(j)]];
    }
    assert selected == ScalerInput(row, log);
    var scaled := scaler(selected);
    for j := 0 to NumericalCount
      invariant forall c: nat :: c < Width && IsNumerical(c) && NumericalIndex(c) < j ==> df[c] == scaled[NumericalIndex(c)]
      invariant forall c: nat :: c < Width && !(IsNumerical(c) && NumericalIndex(c) < j) ==> df[c] == LogStep(row, log)[c]
    {
      df[NumericalColumn(j)] := scaled[j];
    }
  }

  /**
   * The row the classifier receives after preprocessing a freshly built row still carries
   * `mode` unchanged and the same one-hot indicators; only the ten numerical cells moved.
   */
  lemma PreprocessedRowKeepsEncoding(features: AudioFeatures, log: real -> real, scaler: Scaler)
    requires PreservesLength(scaler)
    ensures var out := Preprocessed(CreateRow(features), log, scaler);
      out[3] == features.mode as real
      && out[RawCount..] == CreateRow(features)[RawCount..]
      && (forall k :: 1 <= k <= 11 ==> (out[KeyColumn(k)] == 1.0 <==> features.key == k))
      && (forall t :: 3 <= t <= 5 ==> (out[TimeSignatureColumn(t)] == 1.0 <==> features.timeSignature == t))
  {
    var row := CreateRow(features);
    var out := Preprocessed(row, log, scaler);
    assert row[3] == row[..RawCount][3];
  }

  /** A duration of 0 ms reaches the scaler as log(1). */
  lemma ZeroDurationFeedsLogOne(row: seq<real>, log: real -> real)
    requires |row| == Width && row[10] == 0.0
    ensures ScalerInput(row, log)[NumericalCount - 1] == log(1.0)
  {
  }
}
