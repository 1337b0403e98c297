/** utils/audio_utils.py: a clip is cut into three slices at 10 s and 20 s,
    each slice is run through one or more embedding models, and the
    flattened embeddings are concatenated.

    Audio is a sequence of one-millisecond frames, so that slicing a clip by
    milliseconds (as pydub does) is slicing the sequence. Model inference
    (exporting the slice to a temporary WAV file and running the network on
    it) is the parameter `embed`, which also flattens its output. */
module AudioUtils {
  import opened Common

  /** The samples of one millisecond of audio. */
  type Frame = seq<int>

  /** A clip: one frame per millisecond. */
  type Audio = seq<Frame>

  /** Which model a caller names: a model path for `process_file`, a key of
      the `models` dict for `process_file_custom`. */
  type ModelName = string

  /** Runs a model on one slice and returns the flattened embedding. */
  type Embedder = (ModelName, Audio) -> Vector

  /** The segment length, in milliseconds. */
  const SegmentDuration: nat := 10000

  /** Python's `s[lo:hi]` for non-negative bounds: both are clamped to the length. */
  function Slice<T>(s: seq<T>, lo: nat, hi: nat): (r: seq<T>)
    ensures |r| <= |s|
  {
    var l := if lo <= |s| then lo else |s|;
    var h := if hi <= |s| then hi else |s|;
    if l <= h then s[l..h] else []
  }

  /** `[audio[:10000], audio[10000:20000], audio[20000:]]`. */
  function Segments(audio: Audio): (segs: seq<Audio>)
    ensures |segs| == 3
    ensures segs[0] + segs[1] + segs[2] == audio
    ensures |segs[0]| == if |audio| < SegmentDuration then |audio| else SegmentDuration
    ensures |segs[1]| <= SegmentDuration
    ensures |audio| >= 2 * SegmentDuration ==> |segs[0]| == SegmentDuration && |segs[1]| == SegmentDuration
    ensures |audio| <= 2 * SegmentDuration ==> segs[2] == []
  {
    var d := SegmentDuration;
    var segs := [Slice(audio, 0, d), Slice(audio, d, 2 * d), Slice(audio, 2 * d, |audio|)];
    assert segs[0] + segs[1] + segs[2] == audio;
    segs
  }

  /** A clip shorter than 10 s still yields three slices, the last two empty. */
  lemma ShortClipSegments(audio: Audio)
    requires |audio| < SegmentDuration
    ensures Segments(audio) == [audio, [], []]
  {
    var segs := Segments(audio);
    assert segs[0] == audio;
  }

  /** `process_file`: one model, the three slices in order, each flattened,
      then concatenated. */
  method ProcessFile(audio: Audio, model: ModelName, embed: Embedder) returns (r: Vector)
    ensures var segs := Segments(audio);
      r == embed(model, segs[0]) + embed(model, segs[1]) + embed(model, segs[2])
  {
    var segments := Segments(audio);
    var embeddings: seq<Vector> := [];
    for i := 0 to |segments|
      invariant |embeddings| == i
      invariant forall k :: 0 <= k < i ==> embeddings[k] == embed(model, segments[k])
    {
      embeddings := embeddings + [embed(model, segments[i])];
    }
    r := Flatten(embeddings);
    FlattenThree(embeddings);
  }

  lemma FlattenThree<T>(parts: seq<seq<T>>)
    requires |parts| == 3
    ensures Flatten(parts) == parts[0] + parts[1] + parts[2]
  {
    assert parts[..0] == [];
    FlattenPrefixStep(parts, 0);
    FlattenPrefixStep(parts, 1);
    FlattenPrefixStep(parts, 2);
    assert parts[..3] == parts;
  }

  /** The pieces `process_file_custom` appends: for each slice in order,
      one embedding per model in `models` order. */
  function CustomPieces(segs: seq<Audio>, models: seq<ModelName>, embed: Embedder): seq<Vector>
  {
    Flatten(seq(|segs|, i requires 0 <= i < |segs| => seq(|models|, j requires 0 <= j < |models| => embed(models[j], segs[i]))))
  }

  /** Segment-major order: piece `i * |models| + j` is model `j` on slice `i`,
      and there are `|segs| * |models|` pieces. */
  lemma CustomPiecesOrder(segs: seq<Audio>, models: seq<ModelName>, embed: Embedder, i: nat, j: nat)
    requires i < |segs| && j < |models|
    ensures |CustomPieces(segs, models, embed)| == |segs| * |models|
    ensures CustomPieces(segs, models, embed)[i * |models| + j] == embed(models[j], segs[i])
  {
    var m := seq(|segs|, i requires 0 <= i < |segs| => seq(|models|, j requires 0 <= j < |models| => embed(models[j], segs[i])));
    assert Rectangular(m, |models|);
    FlattenRowMajor(m, |models|, i, j);
  }

  /** Why `process_file_custom` fails: `np.concatenate([])` raises. */
  datatype ConcatError = NothingToConcatenate

  /** `process_file_custom`: for each slice, every model in dict order. With
      no models the list of pieces is empty and the final concatenation
      raises. */
  method ProcessFileCustom(audio: Audio, models: seq<ModelName>, embed: Embedder)
    returns (r: Result<Vector, ConcatError>)
    ensures models == [] <==> r.Err?
    ensures r.Ok? ==> r.value == Flatten(CustomPieces(Segments(audio), models, embed))
  {
    var segments := Segments(audio);
    ghost var rows := seq(|segments|, i requires 0 <= i < |segments| =>
      seq(|models|, j requires 0 <= j < |models| => embed(models[j], segments[i])));
    var embeddingsFromInference: seq<Vector> := [];
    for i := 0 to |segments|
      invariant embeddingsFromInference == Flatten(rows[..i])
    {
      for j := 0 to |models|
        invariant embeddingsFromInference == Flatten(rows[..i]) + rows[i][..j]
      {
        embeddingsFromInference := embeddingsFromInference + [embed(models[j], segments[i])];
      }
      FlattenPrefixStep(rows, i);
    }
    assert rows[..|segments|] == rows;
    assert Rectangular(rows, |models|);
    FlattenRectLength(rows, |models|);
    if embeddingsFromInference == [] {
      r := Err(NothingToConcatenate);
    } else {
      r := Ok(Flatten(embeddingsFromInference));
    }
  }

  /** The output length is the sum of the lengths of all appended pieces. */
  lemma CustomOutputLength(audio: Audio, models: seq<ModelName>, embed: Embedder)
    ensures |Flatten(CustomPieces(Segments(audio), models, embed))|
         == TotalLength(CustomPieces(Segments(audio), models, embed))
  {
    FlattenLength(CustomPieces(Segments(audio), models, embed));
  }
}
