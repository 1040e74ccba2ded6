/** Shared vocabulary of the image minifier: file contents, the content-hash
    cache, the 15% acceptance threshold, the per-file verdict that both
    versions of the `compress` loop reach, and the workspace object that the
    loop updates in place. */
module Images {

  type Bytes = seq<bv8>
  type Path = string

  /** A cache key: the base64 SHA-1 digest of some file content. */
  type Key = string

  /** The digest used as cache key. Any function of the bytes will do: no
      lemma of this model assumes that two contents have different keys. */
  type Hasher = Bytes -> Key

  datatype Option<+T> = None | Some(value: T)

  /** `imagemin.buffer` with one format's plugins: the compressed bytes, or
      None when the call throws. */
  type Codec = Bytes -> Option<Bytes>

  /** `compressed * 1.15 < original`, read over the rationals. An accepted
      result is strictly smaller. */
  predicate Worth(compressed: nat, original: nat): (b: bool)
    ensures b ==> compressed < original
  {
    115 * compressed < 100 * original
  }

  /** A result is accepted exactly when it saves more than 3/23 (about 13%)
      of the original size, and then it is strictly smaller; so a non-empty
      file compressed by at least 15% is always accepted. */
  lemma WorthMeansShrinks(compressed: nat, original: nat)
    ensures Worth(compressed, original) <==> 3 * original < 23 * (original - compressed)
    ensures Worth(compressed, original) ==> 0 < original - compressed <= original
    ensures 0 < original && 100 * compressed <= 85 * original ==> Worth(compressed, original)
  {
  }

  /** The boundary is strict: the model rejects a result exactly 1.15 times
      smaller, and accepts one exactly 15% smaller. */
  lemma WorthBoundary()
    ensures !Worth(20, 23) && !Worth(900, 1000)
    ensures Worth(850, 1000) && Worth(820, 1000)
  {
  }

  /** How one visited image is handled, before any effect is applied. */
  datatype Verdict =
    | CacheHit                  // write mode, content hash already cached
    | CodecFailed               // the compressor threw
    | Estimated(out: Bytes)     // dry run: only the size difference is used
    | Accepted(out: Bytes)      // write mode, above the threshold
    | Rejected(out: Bytes)      // write mode, below the threshold

  /** The decision both versions of `compress` take for one image. The cache
      is consulted only in write mode, and the compressor only when the cache
      did not hit. */
  function Classify(image: Bytes, write: bool, cache: set<Key>, codec: Codec, hash: Hasher): (v: Verdict)
    ensures v.CacheHit? <==> write && hash(image) in cache
    ensures v.CodecFailed? <==> !(write && hash(image) in cache) && codec(image).None?
    ensures v.Estimated? <==> !write && codec(image).Some?
    ensures v.Accepted? <==> write && hash(image) !in cache && codec(image).Some?
                             && Worth(|codec(image).value|, |image|)
    ensures v.Rejected? <==> write && hash(image) !in cache && codec(image).Some?
                             && !Worth(|codec(image).value|, |image|)
    ensures (v.Estimated? || v.Accepted? || v.Rejected?) ==> codec(image) == Some(v.out)
  {
    if write && hash(image) in cache then CacheHit
    else match codec(image)
      case None => CodecFailed
      case Some(out) =>
        if !write then Estimated(out)
        else if Worth(|out|, |image|) then Accepted(out)
        else Rejected(out)
  }

  /** What one pass of the loop reads and updates: the files on disk, the
      cache as held in memory, and the two counters of `totalSaving`
      (`saved` is the field the source calls `compressed`). */
  datatype State = State(files: map<Path, Bytes>, cache: set<Key>, orig: int, saved: int)

  predicate InFiles(images: seq<Path>, files: map<Path, Bytes>)
  {
    forall p :: p in images ==> p in files
  }

  /** Glob results list every path once. */
  predicate Distinct(images: seq<Path>)
  {
    forall i, j :: 0 <= i < j < |images| ==> images[i] != images[j]
  }

  lemma DistinctTail(images: seq<Path>)
    requires images != [] && Distinct(images)
    ensures images[0] !in images[1..] && Distinct(images[1..])
  {
  }

  /** Total size of the listed files. */
  function Lengths(files: map<Path, Bytes>, images: seq<Path>): nat
    requires InFiles(images, files)
  {
    if images == [] then 0 else |files[images[0]]| + Lengths(files, images[1..])
  }

  /** Dry-run estimate: the size difference of every file the compressor
      handles, negative when its output is larger. */
  function Estimate(files: map<Path, Bytes>, images: seq<Path>, codec: Codec): int
    requires InFiles(images, files)
  {
    if images == [] then 0
    else
      var image := files[images[0]];
      (match codec(image)
       case None => 0
       case Some(out) => |image| - |out|)
      + Estimate(files, images[1..], codec)
  }

  /** Bytes saved by the files that changed between `before` and `after`. */
  function Shrinkage(before: map<Path, Bytes>, after: map<Path, Bytes>, images: seq<Path>): int
    requires InFiles(images, before) && InFiles(images, after)
  {
    if images == [] then 0
    else
      var p := images[0];
      (if after[p] != before[p] then |before[p]| - |after[p]| else 0)
      + Shrinkage(before, after, images[1..])
  }

  lemma {:induction false} LengthsFrame(f: map<Path, Bytes>, g: map<Path, Bytes>, images: seq<Path>)
    requires InFiles(images, f) && InFiles(images, g)
    requires forall p :: p in images ==> f[p] == g[p]
    ensures Lengths(f, images) == Lengths(g, images)
  {
    if images != [] {
      LengthsFrame(f, g, images[1..]);
    }
  }

  lemma {:induction false} ShrinkageFrame(before: map<Path, Bytes>, before': map<Path, Bytes>,
                                          after: map<Path, Bytes>, images: seq<Path>)
    requires InFiles(images, before) && InFiles(images, before') && InFiles(images, after)
    requires forall p :: p in images ==> before[p] == before'[p]
    ensures Shrinkage(before, after, images) == Shrinkage(before', after, images)
  {
    if images != [] {
      ShrinkageFrame(before, before', after, images[1..]);
    }
  }

  /** The command-line options after `commandLineArgs`. `src` is "" when
      `--src` is given without a value (null) or with an empty one; an absent
      `--src` takes its default '.'. */
  datatype Options = Options(write: bool, src: string, help: bool)

  /** `options.help || !options.src`: print the usage guide instead of running. */
  predicate ShowsUsage(options: Options)
  {
    options.help || options.src == ""
  }

  /** How a run ends: the usage guide, an uncaught compressor error, or the
      two totals that are logged (the TypeScript `run` then returns 'success'). */
  datatype Outcome = PrintedUsage | Threw | Reported(orig: int, saved: int)

  /** The glob results, one list per format. */
  datatype Listing = Listing(png: seq<Path>, jpeg: seq<Path>, gif: seq<Path>, svg: seq<Path>)

  predicate Listed(listing: Listing, files: map<Path, Bytes>)
  {
    InFiles(listing.png, files) && InFiles(listing.jpeg, files)
    && InFiles(listing.gif, files) && InFiles(listing.svg, files)
  }

  /** One compressor per plugin list of the source. */
  datatype Plugins = Plugins(pngquantZopfli: Codec, mozjpeg: Codec, jpegtran: Codec,
                             gifsicle: Codec, svgo: Codec)

  /** The state that `compress` works on: the files on disk, the persisted
      cache, and the `totalSaving` counters of the latest call. */
  class Workspace {
    var files: map<Path, Bytes>
    var cache: set<Key>
    var orig: int
    var saved: int

    constructor (files: map<Path, Bytes>, cache: set<Key>)
      ensures this.files == files && this.cache == cache
      ensures orig == 0 && saved == 0
    {
      this.files := files;
      this.cache := cache;
      orig, saved := 0, 0;
    }

    function Snapshot(): State
      reads this
    {
      State(files, cache, orig, saved)
    }
  }
}
