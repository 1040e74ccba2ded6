/** The published (npm) version of the minifier: its `compress` loop and the
    top level that runs one `compress` per format and sums the totals.
    In this version a compressor error skips the file, a rejected file's
    original hash is cached, and a dry run adds every size difference. */
module NpmIndex {
  import opened Images

  /** One iteration of the loop over `images`. */
  function Visit(s: State, path: Path, write: bool, codec: Codec, hash: Hasher): (r: State)
    requires path in s.files
    ensures r.files.Keys == s.files.Keys
    ensures forall q :: q in s.files && q != path ==> r.files[q] == s.files[q]
    ensures s.cache <= r.cache
    ensures r.orig == s.orig + |s.files[path]|
  {
    var image := s.files[path];
    var counted := s.(orig := s.orig + |image|);
    match Classify(image, write, s.cache, codec, hash)
    case CacheHit => counted
    case CodecFailed => counted
    case Estimated(out) => counted.(saved := counted.saved + |image| - |out|)
    case Accepted(out) =>
      counted.(files := s.files[path := out], cache := s.cache + {hash(out)},
               saved := counted.saved + |image| - |out|)
    case Rejected(_) => counted.(cache := s.cache + {hash(image)})
  }

  /** The loop of `compress`, from a given state, over the listed images. */
  function Loop(s: State, images: seq<Path>, write: bool, codec: Codec, hash: Hasher): (r: State)
    requires InFiles(images, s.files)
    ensures r.files.Keys == s.files.Keys
    ensures forall q :: q in s.files && q !in images ==> r.files[q] == s.files[q]
    ensures s.cache <= r.cache
    decreases |images|
  {
    if images == [] then s
    else Loop(Visit(s, images[0], write, codec, hash), images[1..], write, codec, hash)
  }

  lemma Unroll(s: State, images: seq<Path>, i: nat, write: bool, codec: Codec, hash: Hasher)
    requires i < |images| && InFiles(images[i..], s.files)
    ensures images[i] in s.files
    ensures Loop(s, images[i..], write, codec, hash)
         == Loop(Visit(s, images[i], write, codec, hash), images[i + 1..], write, codec, hash)
  {
    assert images[i..][0] == images[i] && images[i..][1..] == images[i + 1..];
  }

  /** One line group of the top level: `compress` from zeroed counters,
      then `orig += totalSaving.orig` and `compressed += totalSaving.compressed`. */
  function AddBatch(s: State, images: seq<Path>, write: bool, codec: Codec, hash: Hasher): (r: State)
    requires InFiles(images, s.files)
    ensures r.files.Keys == s.files.Keys
    ensures s.cache <= r.cache
  {
    var t := Loop(State(s.files, s.cache, 0, 0), images, write, codec, hash);
    State(t.files, t.cache, s.orig + t.orig, s.saved + t.saved)
  }

  /** The five `compress` calls of the top level, in order; JPEG files are
      processed twice, by mozjpeg and then by jpegtran. */
  function Passes(s: State, listing: Listing, jpegAgain: seq<Path>, plugins: Plugins, write: bool, hash: Hasher): (r: State)
    requires Listed(listing, s.files) && InFiles(jpegAgain, s.files)
    ensures r.files.Keys == s.files.Keys
    ensures s.cache <= r.cache
  {
    var png := AddBatch(s, listing.png, write, plugins.pngquantZopfli, hash);
    var jpeg := AddBatch(png, listing.jpeg, write, plugins.mozjpeg, hash);
    var jpegtranDone := AddBatch(jpeg, jpegAgain, write, plugins.jpegtran, hash);
    var gif := AddBatch(jpegtranDone, listing.gif, write, plugins.gifsicle, hash);
    AddBatch(gif, listing.svg, write, plugins.svgo, hash)
  }

  /** One iteration of the `for (const imagePath of images)` loop; `memory`
      is the loaded cache, used only in write mode. */
  method VisitPath(ws: Workspace, memory: set<Key>, path: Path, write: bool, codec: Codec, hash: Hasher)
    returns (memory': set<Key>)
    requires path in ws.files
    modifies ws`files, ws`orig, ws`saved
    ensures var r := Visit(State(old(ws.files), memory, old(ws.orig), old(ws.saved)), path, write, codec, hash);
            ws.files == r.files && memory' == r.cache && ws.orig == r.orig && ws.saved == r.saved
  {
    memory' := memory;
    var image := ws.files[path];
    ws.orig := ws.orig + |image|;
    if write && hash(image) in memory {
      return;
    }
    var result := codec(image);
    if result.None? {
      return;
    }
    var compressed := result.value;
    if write {
      var key: Key;
      if Worth(|compressed|, |image|) {
        ws.files := ws.files[path := compressed];
        key := hash(compressed);
        ws.saved := ws.saved + |image| - |compressed|;
      } else {
        key := hash(image);
      }
      memory' := memory + {key};
    } else {
      ws.saved := ws.saved + |image| - |compressed|;
    }
  }

  /** `compress(imageminPlugins, images, options)`: the counters start at
      zero, the cache is loaded only in write mode and saved at the end. */
  method Compress(ws: Workspace, images: seq<Path>, write: bool, codec: Codec, hash: Hasher)
    requires InFiles(images, ws.files)
    modifies ws
    ensures ws.Snapshot() == Loop(State(old(ws.files), old(ws.cache), 0, 0), images, write, codec, hash)
  {
    ws.orig, ws.saved := 0, 0;
    ghost var start := ws.Snapshot();
    var memory: set<Key> := {};
    if write {
      memory := ws.cache;
    }
    for i := 0 to |images|
      invariant ws.files.Keys == start.files.Keys
      invariant ws.cache == start.cache
      invariant !write ==> memory == {}
      invariant Loop(start, images, write, codec, hash)
             == Loop(State(ws.files, if write then memory else ws.cache, ws.orig, ws.saved),
                     images[i..], write, codec, hash)
    {
      ghost var before := State(ws.files, if write then memory else ws.cache, ws.orig, ws.saved);
      Unroll(before, images, i, write, codec, hash);
      if !write {
        DryVisitIgnoresCache(before, memory, images[i], codec, hash);
      }
      memory := VisitPath(ws, memory, images[i], write, codec, hash);
    }
    if write {
      ws.cache := memory;
    }
  }

  /** A dry-run visit neither reads nor changes the cache. */
  lemma DryVisitIgnoresCache(s: State, cache: set<Key>, path: Path, codec: Codec, hash: Hasher)
    requires path in s.files
    ensures Visit(s.(cache := cache), path, false, codec, hash)
         == Visit(s, path, false, codec, hash).(cache := cache)
  {
  }

  /** A cache hit adds the file's length to `orig` and nothing else; the
      compressor is not consulted, so any other compressor gives the same. */
  lemma CacheHitSkips(s: State, path: Path, codec: Codec, other: Codec, hash: Hasher)
    requires path in s.files && hash(s.files[path]) in s.cache
    ensures Visit(s, path, true, codec, hash) == s.(orig := s.orig + |s.files[path]|)
    ensures Visit(s, path, true, codec, hash) == Visit(s, path, true, other, hash)
  {
  }

  /** A compressor error skips the file: nothing but `orig` changes. */
  lemma FailureSkips(s: State, path: Path, write: bool, codec: Codec, hash: Hasher)
    requires path in s.files && codec(s.files[path]).None?
    ensures Visit(s, path, write, codec, hash) == s.(orig := s.orig + |s.files[path]|)
  {
  }

  /** The counters a batch starts from are only added to: the run totals
      are the sums of the per-batch totals. */
  lemma {:induction false} TotalsAreAdditive(s: State, images: seq<Path>, write: bool, codec: Codec,
                                               hash: Hasher, orig: int, saved: int)
    requires InFiles(images, s.files)
    ensures Loop(s.(orig := s.orig + orig, saved := s.saved + saved), images, write, codec, hash)
         == var r := Loop(s, images, write, codec, hash); r.(orig := r.orig + orig, saved := r.saved + saved)
    decreases |images|
  {
    if images != [] {
      var s' := s.(orig := s.orig + orig, saved := s.saved + saved);
      var v := Visit(s, images[0], write, codec, hash);
      assert Visit(s', images[0], write, codec, hash) == v.(orig := v.orig + orig, saved := v.saved + saved);
      TotalsAreAdditive(v, images[1..], write, codec, hash, orig, saved);
    }
  }

  /** Summing a batch's totals into the running ones is the same as
      continuing one count across batches. */
  lemma AddBatchContinuesCount(s: State, images: seq<Path>, write: bool, codec: Codec, hash: Hasher)
    requires InFiles(images, s.files)
    ensures AddBatch(s, images, write, codec, hash) == Loop(s, images, write, codec, hash)
  {
    var zero := State(s.files, s.cache, 0, 0);
    assert zero.(orig := zero.orig + s.orig, saved := zero.saved + s.saved) == s;
    TotalsAreAdditive(zero, images, write, codec, hash, s.orig, s.saved);
  }

  /** Processing a list in two parts is processing it in one go. */
  lemma {:induction false} LoopAppend(s: State, a: seq<Path>, b: seq<Path>, write: bool, codec: Codec, hash: Hasher)
    requires InFiles(a + b, s.files)
    ensures InFiles(b, Loop(s, a, write, codec, hash).files)
    ensures Loop(s, a + b, write, codec, hash) == Loop(Loop(s, a, write, codec, hash), b, write, codec, hash)
    decreases |a|
  {
    if a == [] {
      assert a + b == b;
    } else {
      assert (a + b)[0] == a[0] && (a + b)[1..] == a[1..] + b;
      LoopAppend(Visit(s, a[0], write, codec, hash), a[1..], b, write, codec, hash);
    }
  }

  /** A dry run changes no file and no cache key; `orig` grows by the size of
      every listed file and `saved` by the size difference of every file the
      compressor handles, negative differences included. */
  lemma {:induction false} DryRun(s: State, images: seq<Path>, codec: Codec, hash: Hasher)
    requires InFiles(images, s.files)
    ensures var r := Loop(s, images, false, codec, hash);
            r.files == s.files && r.cache == s.cache
            && r.orig == s.orig + Lengths(s.files, images)
            && r.saved == s.saved + Estimate(s.files, images, codec)
    decreases |images|
  {
    if images != [] {
      DryRun(Visit(s, images[0], false, codec, hash), images[1..], codec, hash);
    }
  }

  /** Every listed image is counted in `orig`, cache hits and compressor
      errors included, at its size before the batch. */
  lemma {:induction false} Counted(s: State, images: seq<Path>, write: bool, codec: Codec, hash: Hasher)
    requires InFiles(images, s.files) && Distinct(images)
    ensures Loop(s, images, write, codec, hash).orig == s.orig + Lengths(s.files, images)
    decreases |images|
  {
    if images != [] {
      var v := Visit(s, images[0], write, codec, hash);
      DistinctTail(images);
      Counted(v, images[1..], write, codec, hash);
      LengthsFrame(v.files, s.files, images[1..]);
    }
  }

  /** In write mode `saved` only grows, and by no more than `orig`. */
  lemma {:induction false} SavedBounds(s: State, images: seq<Path>, codec: Codec, hash: Hasher)
    requires InFiles(images, s.files)
    ensures var r := Loop(s, images, true, codec, hash);
            s.saved <= r.saved && r.saved - s.saved <= r.orig - s.orig
    decreases |images|
  {
    if images != [] {
      var image := s.files[images[0]];
      if codec(image).Some? {
        WorthMeansShrinks(|codec(image).value|, |image|);
      }
      SavedBounds(Visit(s, images[0], true, codec, hash), images[1..], codec, hash);
    }
  }

  /** In write mode a file is only ever replaced by the compressor's output
      for its original content, and only above the threshold. */
  lemma {:induction false} WritesOnlyAboveThreshold(s: State, images: seq<Path>, codec: Codec, hash: Hasher)
    requires InFiles(images, s.files) && Distinct(images)
    ensures var r := Loop(s, images, true, codec, hash);
            forall q :: q in s.files && r.files[q] != s.files[q] ==>
              q in images && codec(s.files[q]) == Some(r.files[q]) && Worth(|r.files[q]|, |s.files[q]|)
    decreases |images|
  {
    if images != [] {
      var v := Visit(s, images[0], true, codec, hash);
      DistinctTail(images);
      WritesOnlyAboveThreshold(v, images[1..], codec, hash);
    }
  }

  /** In write mode `saved` is exactly what the rewritten files lost. */
  lemma {:induction false} SavedIsShrinkage(s: State, images: seq<Path>, codec: Codec, hash: Hasher)
    requires InFiles(images, s.files) && Distinct(images)
    ensures var r := Loop(s, images, true, codec, hash);
            r.saved == s.saved + Shrinkage(s.files, r.files, images)
    decreases |images|
  {
    if images != [] {
      var p := images[0];
      var v := Visit(s, p, true, codec, hash);
      var r := Loop(v, images[1..], true, codec, hash);
      DistinctTail(images);
      SavedIsShrinkage(v, images[1..], codec, hash);
      ShrinkageFrame(v.files, s.files, r.files, images[1..]);
      var image := s.files[p];
      if codec(image).Some? {
        WorthMeansShrinks(|codec(image).value|, |image|);
      }
    }
  }

  /** In write mode, every file the compressor handled (or that was already
      cached) ends with the hash of its current content in the cache. */
  lemma {:induction false} ProcessedFilesCached(s: State, images: seq<Path>, codec: Codec, hash: Hasher)
    requires InFiles(images, s.files) && Distinct(images)
    ensures var r := Loop(s, images, true, codec, hash);
            forall q :: q in images && (codec(s.files[q]).Some? || hash(s.files[q]) in s.cache) ==>
              hash(r.files[q]) in r.cache
    decreases |images|
  {
    if images != [] {
      var v := Visit(s, images[0], true, codec, hash);
      DistinctTail(images);
      ProcessedFilesCached(v, images[1..], codec, hash);
    }
  }

  /** A file that a write-mode pass leaves alone: its hash is cached, or the
      compressor fails on it. */
  predicate Settled(s: State, path: Path, codec: Codec, hash: Hasher)
    requires path in s.files
  {
    hash(s.files[path]) in s.cache || codec(s.files[path]).None?
  }

  /** A write-mode pass over settled files changes nothing but `orig`. */
  lemma {:induction false} SettledPassIsNoOp(s: State, images: seq<Path>, codec: Codec, hash: Hasher)
    requires InFiles(images, s.files)
    requires forall q :: q in images ==> Settled(s, q, codec, hash)
    ensures Loop(s, images, true, codec, hash) == s.(orig := s.orig + Lengths(s.files, images))
    decreases |images|
  {
    if images != [] {
      assert Settled(s, images[0], codec, hash);
      var v := Visit(s, images[0], true, codec, hash);
      assert v == s.(orig := s.orig + |s.files[images[0]]|);
      forall q | q in images[1..] ensures Settled(v, q, codec, hash) {
        assert Settled(s, q, codec, hash);
      }
      SettledPassIsNoOp(v, images[1..], codec, hash);
    }
  }

  /** Running the same write-mode batch twice: the second run changes no
      file, no cache key and adds nothing to `saved`. */
  lemma RerunIsNoOp(s: State, images: seq<Path>, codec: Codec, hash: Hasher)
    requires InFiles(images, s.files) && Distinct(images)
    ensures var r := Loop(s, images, true, codec, hash);
            Loop(r, images, true, codec, hash) == r.(orig := r.orig + Lengths(r.files, images))
  {
    var r := Loop(s, images, true, codec, hash);
    ProcessedFilesCached(s, images, codec, hash);
    WritesOnlyAboveThreshold(s, images, codec, hash);
    SettledPassIsNoOp(r, images, codec, hash);
  }

  /** A file whose current content has its hash cached is a cache hit at
      every step of a later write-mode pass, so the pass leaves it as it is. */
  lemma {:induction false} CachedFileStays(s: State, images: seq<Path>, path: Path, codec: Codec, hash: Hasher)
    requires InFiles(images, s.files) && path in s.files && hash(s.files[path]) in s.cache
    ensures Loop(s, images, true, codec, hash).files[path] == s.files[path]
    decreases |images|
  {
    if images != [] {
      var v := Visit(s, images[0], true, codec, hash);
      assert v.files[path] == s.files[path];
      CachedFileStays(v, images[1..], path, codec, hash);
    }
  }

  /** A later write-mode pass, whatever its compressor and its listing,
      leaves alone every file the first pass compressed without error or
      found cached. When every file of the later list was compressed by the
      first pass, the later pass changes nothing but `orig`. */
  lemma SecondPassSkips(s: State, images: seq<Path>, first: Codec, again: seq<Path>, second: Codec, hash: Hasher)
    requires InFiles(images, s.files) && Distinct(images) && InFiles(again, s.files)
    ensures var r := Loop(s, images, true, first, hash);
            forall q :: q in images && (first(s.files[q]).Some? || hash(s.files[q]) in s.cache) ==>
              Loop(r, again, true, second, hash).files[q] == r.files[q]
    ensures var r := Loop(s, images, true, first, hash);
            (forall q :: q in again ==> q in images && first(s.files[q]).Some?) ==>
              Loop(r, again, true, second, hash) == r.(orig := r.orig + Lengths(r.files, again))
  {
    var r := Loop(s, images, true, first, hash);
    ProcessedFilesCached(s, images, first, hash);
    forall q | q in images && (first(s.files[q]).Some? || hash(s.files[q]) in s.cache)
      ensures Loop(r, again, true, second, hash).files[q] == r.files[q]
    {
      CachedFileStays(r, again, q, second, hash);
    }
    if forall q :: q in again ==> q in images && first(s.files[q]).Some? {
      SettledPassIsNoOp(r, again, second, hash);
    }
  }

  /** `totalSaving = await compress(...)` followed by the two additions. */
  method RunBatch(ws: Workspace, orig: int, compressed: int, images: seq<Path>, write: bool, codec: Codec,
                  hash: Hasher) returns (orig': int, compressed': int)
    requires InFiles(images, ws.files)
    modifies ws
    ensures State(ws.files, ws.cache, orig', compressed')
         == AddBatch(State(old(ws.files), old(ws.cache), orig, compressed), images, write, codec, hash)
    ensures ws.orig == orig' - orig && ws.saved == compressed' - compressed
  {
    Compress(ws, images, write, codec, hash);
    orig' := orig + ws.orig;
    compressed' := compressed + ws.saved;
  }

  /** The module body: the usage gate, then the five `compress` calls in
      order, with `orig` and `compressed` summed across them. */
  method Run(ws: Workspace, options: Options, listing: Listing, jpegAgain: seq<Path>, plugins: Plugins,
             hash: Hasher) returns (outcome: Outcome)
    requires Listed(listing, ws.files) && InFiles(jpegAgain, ws.files)
    modifies ws
    ensures ShowsUsage(options) ==> outcome == PrintedUsage && unchanged(ws)
    ensures !ShowsUsage(options) ==>
      var r := Passes(State(old(ws.files), old(ws.cache), 0, 0), listing, jpegAgain, plugins, options.write, hash);
      outcome == Reported(r.orig, r.saved) && ws.files == r.files && ws.cache == r.cache
  {
    if ShowsUsage(options) {
      return PrintedUsage;
    }
    var write := options.write;
    var orig, compressed := 0, 0;
    orig, compressed := RunBatch(ws, orig, compressed, listing.png, write, plugins.pngquantZopfli, hash);
    orig, compressed := RunBatch(ws, orig, compressed, listing.jpeg, write, plugins.mozjpeg, hash);
    orig, compressed := RunBatch(ws, orig, compressed, jpegAgain, write, plugins.jpegtran, hash);
    orig, compressed := RunBatch(ws, orig, compressed, listing.gif, write, plugins.gifsicle, hash);
    orig, compressed := RunBatch(ws, orig, compressed, listing.svg, write, plugins.svgo, hash);
    outcome := Reported(orig, compressed);
  }

  /** A dry run of the whole top level leaves every file and the cache as
      they were. */
  lemma DryRunPasses(s: State, listing: Listing, jpegAgain: seq<Path>, plugins: Plugins, hash: Hasher)
    requires Listed(listing, s.files) && InFiles(jpegAgain, s.files)
    ensures var r := Passes(s, listing, jpegAgain, plugins, false, hash);
            r.files == s.files && r.cache == s.cache
  {
    var zero := State(s.files, s.cache, 0, 0);
    DryRun(zero, listing.png, plugins.pngquantZopfli, hash);
    DryRun(zero, listing.jpeg, plugins.mozjpeg, hash);
    DryRun(zero, jpegAgain, plugins.jpegtran, hash);
    DryRun(zero, listing.gif, plugins.gifsicle, hash);
    DryRun(zero, listing.svg, plugins.svgo, hash);
  }

  /** The jpegtran batch right after the mozjpeg batch, over the same JPEG
      files (including those mozjpeg failed on): it leaves alone every file
      mozjpeg compressed without error or found cached, and when mozjpeg
      compressed every file of the jpegtran list it changes nothing but
      `orig`. */
  lemma JpegtranSkipsMozjpegOutput(s: State, jpeg: seq<Path>, jpegAgain: seq<Path>, mozjpeg: Codec,
                                   jpegtran: Codec, hash: Hasher)
    requires InFiles(jpeg, s.files) && Distinct(jpeg) && InFiles(jpegAgain, s.files)
    ensures var r := AddBatch(s, jpeg, true, mozjpeg, hash);
            forall q :: q in jpeg && (mozjpeg(s.files[q]).Some? || hash(s.files[q]) in s.cache) ==>
              AddBatch(r, jpegAgain, true, jpegtran, hash).files[q] == r.files[q]
    ensures var r := AddBatch(s, jpeg, true, mozjpeg, hash);
            (forall q :: q in jpegAgain ==> q in jpeg && mozjpeg(s.files[q]).Some?) ==>
              AddBatch(r, jpegAgain, true, jpegtran, hash) == r.(orig := r.orig + Lengths(r.files, jpegAgain))
  {
    var r := AddBatch(s, jpeg, true, mozjpeg, hash);
    AddBatchContinuesCount(s, jpeg, true, mozjpeg, hash);
    AddBatchContinuesCount(r, jpegAgain, true, jpegtran, hash);
    SecondPassSkips(s, jpeg, mozjpeg, jpegAgain, jpegtran, hash);
  }
}
