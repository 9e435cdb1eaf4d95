/**
 * `load_nab_from_bytes` and `get_mnist_data` of the Rust/WebAssembly
 * neural-network trainer (the earlier copy shares both): decode the two
 * gzip-compressed, bincode-serialised arrays and split them into a training
 * prefix of `train_size` samples and a test suffix.  Decompression and
 * deserialisation are the parameters `gunzip` and `deserialize`; the rounding
 * that computes `train_size` is left to the caller, which passes the count.
 * Slicing out of bounds, indexing a missing dimension and `num_samples -
 * train_size` going below zero stop the program: the `Panic` outcome.
 */
module MnistSplit {
  import opened Wrappers

  newtype Byte = x: int | 0 <= x < 256

  /** `NDArray` as the trainer sees it: flat data in row-major order and a shape. */
  datatype NDArray = NDArray(data: seq<real>, shape: seq<nat>)

  datatype IoErrorKind = InvalidData | OtherKind(name: string)

  datatype IoError = IoError(kind: IoErrorKind, message: string)

  /**
   * `load_nab_from_bytes`: a decompression error passes through unchanged, a
   * deserialisation error becomes an `InvalidData` I/O error.
   */
  function LoadNabFromBytes(bytes: seq<Byte>, gunzip: seq<Byte> -> Result<seq<Byte>, IoError>,
                            deserialize: seq<Byte> -> Result<NDArray, string>): (r: Result<NDArray, IoError>)
    ensures gunzip(bytes).Err? ==> r == Err(gunzip(bytes).error)
    ensures gunzip(bytes).Ok? && deserialize(gunzip(bytes).value).Err? ==>
              r == Err(IoError(InvalidData, deserialize(gunzip(bytes).value).error))
    ensures r.Ok? <==> gunzip(bytes).Ok? && deserialize(gunzip(bytes).value).Ok?
  {
    match gunzip(bytes)
    case Err(e) => Err(e)
    case Ok(serialized) =>
      match deserialize(serialized)
      case Err(message) => Err(IoError(InvalidData, message))
      case Ok(loaded) => Ok(loaded)
  }

  datatype Split = Split(trainImages: NDArray, trainLabels: NDArray, testImages: NDArray, testLabels: NDArray)

  /** What `get_mnist_data` ends in: the split, a JavaScript error value, or a panic. */
  datatype Outcome = Done(split: Split) | JsError(message: string) | Panic

  /** The slicing succeeds: the images have three dimensions and the buffers hold the `train_size` prefix. */
  predicate SplitFits(images: NDArray, labels: NDArray, trainSize: nat) {
    |images.shape| >= 3
    && trainSize * images.shape[1] * images.shape[2] <= |images.data|
    && trainSize <= images.shape[0]
    && trainSize <= |labels.data|
  }

  /** The split of two loaded arrays at `train_size`. */
  function SplitAt(images: NDArray, labels: NDArray, trainSize: nat): (r: Outcome)
    ensures r != Panic <==> SplitFits(images, labels, trainSize)
    ensures r.JsError? == false
  {
    if |images.shape| < 3 then Panic
    else
      var numSamples := images.shape[0];
      var cut := trainSize * images.shape[1] * images.shape[2];
      if cut > |images.data| || trainSize > numSamples || trainSize > |labels.data| then Panic
      else
        Done(Split(
          NDArray(images.data[..cut], [trainSize, images.shape[1], images.shape[2]]),
          NDArray(labels.data[..trainSize], [trainSize]),
          NDArray(images.data[cut..], [numSamples - trainSize, images.shape[1], images.shape[2]]),
          NDArray(labels.data[trainSize..], [numSamples - trainSize])))
  }

  /** `get_mnist_data(train_images_nab, train_labels_nab, train_percent)`, with the rounded count given. */
  function GetMnistData(imageBytes: seq<Byte>, labelBytes: seq<Byte>, trainSize: nat,
                        gunzip: seq<Byte> -> Result<seq<Byte>, IoError>,
                        deserialize: seq<Byte> -> Result<NDArray, string>,
                        display: IoError -> string): (r: Outcome)
    ensures LoadNabFromBytes(imageBytes, gunzip, deserialize).Err? ==>
              r == JsError("Error loading images: " + display(LoadNabFromBytes(imageBytes, gunzip, deserialize).error))
    ensures LoadNabFromBytes(imageBytes, gunzip, deserialize).Ok? && LoadNabFromBytes(labelBytes, gunzip, deserialize).Err? ==>
              r == JsError("Error loading labels: " + display(LoadNabFromBytes(labelBytes, gunzip, deserialize).error))
    ensures LoadNabFromBytes(imageBytes, gunzip, deserialize).Ok? && LoadNabFromBytes(labelBytes, gunzip, deserialize).Ok? ==>
              r == SplitAt(LoadNabFromBytes(imageBytes, gunzip, deserialize).value,
                           LoadNabFromBytes(labelBytes, gunzip, deserialize).value, trainSize)
  {
    match LoadNabFromBytes(imageBytes, gunzip, deserialize)
    case Err(e) => JsError("Error loading images: " + display(e))
    case Ok(images) =>
      match LoadNabFromBytes(labelBytes, gunzip, deserialize)
      case Err(e) => JsError("Error loading labels: " + display(e))
      case Ok(labels) => SplitAt(images, labels, trainSize)
  }

  /**
   * The training images are the first `train_size * h * w` values with shape
   * `[train_size, h, w]`, the test images the rest with shape
   * `[num_samples - train_size, h, w]`; the labels split at `train_size`.
   * Concatenating the parts restores the inputs, and the first dimensions add
   * up to `num_samples`.
   */
  lemma SplitPartitions(images: NDArray, labels: NDArray, trainSize: nat)
    requires SplitFits(images, labels, trainSize)
    ensures var s := SplitAt(images, labels, trainSize).split;
            var h := images.shape[1];
            var w := images.shape[2];
            && s.trainImages.data + s.testImages.data == images.data
            && |s.trainImages.data| == trainSize * h * w
            && s.trainLabels.data + s.testLabels.data == labels.data
            && |s.trainLabels.data| == trainSize
            && s.trainImages.shape == [trainSize, h, w]
            && s.testImages.shape == [images.shape[0] - trainSize, h, w]
            && s.trainLabels.shape == [trainSize] && s.testLabels.shape == [images.shape[0] - trainSize]
            && s.trainImages.shape[0] + s.testImages.shape[0] == images.shape[0]
            && s.trainLabels.shape[0] + s.testLabels.shape[0] == images.shape[0]
  {
    var cut := trainSize * images.shape[1] * images.shape[2];
    assert images.data[..cut] + images.data[cut..] == images.data;
    assert labels.data[..trainSize] + labels.data[trainSize..] == labels.data;
  }

  /** A training size beyond the sample count always panics. */
  lemma OversizedSplitPanics(images: NDArray, labels: NDArray, trainSize: nat)
    requires |images.shape| >= 1 && trainSize > images.shape[0]
    ensures SplitAt(images, labels, trainSize) == Panic
  {
  }

  /**
   * `fetch_and_train` of the earlier copy logs bytes 0..10 of both buffers
   * before loading them, so shorter buffers panic first; otherwise it goes on
   * with `get_mnist_data` (the training that follows is not part of this model).
   */
  function EarlyFetchAndTrainData(imageBytes: seq<Byte>, labelBytes: seq<Byte>, trainSize: nat,
                                  gunzip: seq<Byte> -> Result<seq<Byte>, IoError>,
                                  deserialize: seq<Byte> -> Result<NDArray, string>,
                                  display: IoError -> string): (r: Outcome)
    ensures (|imageBytes| < 10 || |labelBytes| < 10) ==> r == Panic
    ensures (|imageBytes| >= 10 && |labelBytes| >= 10) ==>
              r == GetMnistData(imageBytes, labelBytes, trainSize, gunzip, deserialize, display)
  {
    if |imageBytes| < 10 || |labelBytes| < 10 then Panic
    else GetMnistData(imageBytes, labelBytes, trainSize, gunzip, deserialize, display)
  }
}
