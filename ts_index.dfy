/** The TypeScript version of the minifier: its `compress` loop and the
    exported `run`. Unlike the npm version, a rejected file's hash is not
    cached, savings are only added on accept in write mode, and a compressor
    error is not caught: it ends the batch and the run before the cache of
    that batch is saved. */
module TsIndex {
  import opened Images
  import NpmIndex

  /** Where the loop stands: it went through every path, or the compressor
      threw while `state` was current (files written so far stay written). */
  datatype Progress = Completed(state: State) | Aborted(state: State)

  /** One iteration of the loop over `images`. */
  function Visit(s: State, path: Path, write: bool, codec: Codec, hash: Hasher): (r: Progress)
    requires path in s.files
    ensures r.state.files.Keys == s.files.Keys
    ensures forall q :: q in s.files && q != path ==> r.state.files[q] == s.files[q]
    ensures s.cache <= r.state.cache
    ensures r.state.orig == s.orig + |s.files[path]|
  {
    var image := s.files[path];
    var counted := s.(orig := s.orig + |image|);
    match Classify(image, write, s.cache, codec, hash)
    case CacheHit => Completed(counted)
    case CodecFailed => Aborted(counted)
    case Estimated(out) => Completed(counted.(saved := counted.saved + |image| - |out|))
    case Accepted(out) =>
      Completed(counted.(files := s.files[path := out], cache := s.cache + {hash(out)},
                         saved := counted.saved + |image| - |out|))
    case Rejected(_) => Completed(counted)
  }

  /** The loop of `compress`, from a given state, over the listed images;
      it stops at the first compressor error. */
  function Loop(s: State, images: seq<Path>, write: bool, codec: Codec, hash: Hasher): (r: Progress)
    requires InFiles(images, s.files)
    ensures r.state.files.Keys == s.files.Keys
    ensures forall q :: q in s.files && q !in images ==> r.state.files[q] == s.files[q]
    ensures s.cache <= r.state.cache
    decreases |images|
  {
    if images == [] then Completed(s)
    else match Visit(s, images[0], write, codec, hash)
      case Aborted(t) => Aborted(t)
      case Completed(t) => Loop(t, images[1..], write, codec, hash)
  }

  lemma Unroll(s: State, images: seq<Path>, i: nat, write: bool, codec: Codec, hash: Hasher)
    requires i < |images| && InFiles(images[i..], s.files)
    ensures images[i] in s.files
    ensures Loop(s, images[i..], write, codec, hash)
         == match Visit(s, images[i], write, codec, hash)
            case Aborted(t) => Aborted(t)
            case Completed(t) => Loop(t, images[i + 1..], write, codec, hash)
  {
    assert images[i..][0] == images[i] && images[i..][1..] == images[i + 1..];
  }

  /** One line group of `run`: `compress` from zeroed counters, then the two
      additions. When `compress` throws, the additions do not happen and the
      persisted cache is the one the batch started from. */
  function AddBatch(s: State, images: seq<Path>, write: bool, codec: Codec, hash: Hasher): (r: Progress)
    requires InFiles(images, s.files)
    ensures r.state.files.Keys == s.files.Keys
    ensures forall q :: q in s.files && q !in images ==> r.state.files[q] == s.files[q]
    ensures s.cache <= r.state.cache
  {
    match Loop(State(s.files, s.cache, 0, 0), images, write, codec, hash)
    case Completed(t) => Completed(State(t.files, t.cache, s.orig + t.orig, s.saved + t.saved))
    case Aborted(t) => Aborted(s.(files := t.files))
  }

  /** The next batch, unless an earlier one threw. */
  function Then(p: Progress, images: seq<Path>, write: bool, codec: Codec, hash: Hasher): (r: Progress)
    requires InFiles(images, p.state.files)
    ensures r.state.files.Keys == p.state.files.Keys
  {
    if p.Aborted? then p else AddBatch(p.state, images, write, codec, hash)
  }

  /** The four `compress` calls of `run`, in order. */
  function Passes(s: State, listing: Listing, plugins: Plugins, write: bool, hash: Hasher): (r: Progress)
    requires Listed(listing, s.files)
    ensures r.state.files.Keys == s.files.Keys
    ensures s.cache <= r.state.cache
    ensures AddBatch(s, listing.png, write, plugins.pngquantZopfli, hash).Aborted?
            ==> r == AddBatch(s, listing.png, write, plugins.pngquantZopfli, hash)
  {
    var png := AddBatch(s, listing.png, write, plugins.pngquantZopfli, hash);
    var jpeg := Then(png, listing.jpeg, write, plugins.mozjpeg, hash);
    var gif := Then(jpeg, listing.gif, write, plugins.gifsicle, hash);
    Then(gif, listing.svg, write, plugins.svgo, hash)
  }

  /** A throw in any batch ends `run`: no later batch's list is visited, and
      the persisted cache is the one the last completed batch saved. */
  lemma ThrowEndsRun(s: State, listing: Listing, plugins: Plugins, write: bool, hash: Hasher)
    requires Listed(listing, s.files)
    ensures var png := AddBatch(s, listing.png, write, plugins.pngquantZopfli, hash);
            var jpeg := Then(png, listing.jpeg, write, plugins.mozjpeg, hash);
            var r := Passes(s, listing, plugins, write, hash);
            png.Completed? && jpeg.Aborted? ==>
              r == jpeg && r.state.cache == png.state.cache
              && forall q :: q in s.files && q !in listing.png && q !in listing.jpeg ==> r.state.files[q] == s.files[q]
    ensures var png := AddBatch(s, listing.png, write, plugins.pngquantZopfli, hash);
            var jpeg := Then(png, listing.jpeg, write, plugins.mozjpeg, hash);
            var gif := Then(jpeg, listing.gif, write, plugins.gifsicle, hash);
            var r := Passes(s, listing, plugins, write, hash);
            jpeg.Completed? && gif.Aborted? ==>
              r == gif && r.state.cache == jpeg.state.cache
              && forall q :: q in s.files && q !in listing.png && q !in listing.jpeg && q !in listing.gif ==>
                   r.state.files[q] == s.files[q]
    ensures var png := AddBatch(s, listing.png, write, plugins.pngquantZopfli, hash);
            var jpeg := Then(png, listing.jpeg, write, plugins.mozjpeg, hash);
            var gif := Then(jpeg, listing.gif, write, plugins.gifsicle, hash);
            var r := Passes(s, listing, plugins, write, hash);
            gif.Completed? && r.Aborted? ==> r.state.cache == gif.state.cache
  {
  }

  /** Cache keys of the files that changed between `before` and `after`. */
  function RewrittenKeys(before: map<Path, Bytes>, after: map<Path, Bytes>, images: seq<Path>, hash: Hasher): set<Key>
    requires InFiles(images, before) && InFiles(images, after)
  {
    if images == [] then {}
    else
      var p := images[0];
      (if after[p] != before[p] then {hash(after[p])} else {}) + RewrittenKeys(before, after, images[1..], hash)
  }

  lemma {:induction false} RewrittenKeysFrame(before: map<Path, Bytes>, before': map<Path, Bytes>,
                                              after: map<Path, Bytes>, images: seq<Path>, hash: Hasher)
    requires InFiles(images, before) && InFiles(images, before') && InFiles(images, after)
    requires forall p :: p in images ==> before[p] == before'[p]
    ensures RewrittenKeys(before, after, images, hash) == RewrittenKeys(before', after, images, hash)
  {
    if images != [] {
      RewrittenKeysFrame(before, before', after, images[1..], hash);
    }
  }

  /** A cache hit adds the file's length to `orig` and nothing else; the
      compressor is not consulted, so any other compressor gives the same. */
  lemma CacheHitSkips(s: State, path: Path, codec: Codec, other: Codec, hash: Hasher)
    requires path in s.files && hash(s.files[path]) in s.cache
    ensures Visit(s, path, true, codec, hash) == Completed(s.(orig := s.orig + |s.files[path]|))
    ensures Visit(s, path, true, codec, hash) == Visit(s, path, true, other, hash)
  {
  }

  /** A compressor error that the cache did not pre-empt ends the loop. */
  lemma FailureAborts(s: State, path: Path, write: bool, codec: Codec, hash: Hasher)
    requires path in s.files && codec(s.files[path]).None?
    requires !(write && hash(s.files[path]) in s.cache)
    ensures Visit(s, path, write, codec, hash) == Aborted(s.(orig := s.orig + |s.files[path]|))
  {
  }

  /** A rejected file's visit writes nothing, caches nothing and credits
      nothing to `saved`. The next run compresses it again unless an accepted
      file of the same run ends with content of the same hash. */
  lemma RejectIsForgotten(s: State, path: Path, codec: Codec, other: Codec, hash: Hasher)
    requires path in s.files && hash(s.files[path]) !in s.cache
    requires codec(s.files[path]).Some? && !Worth(|codec(s.files[path]).value|, |s.files[path]|)
    ensures Visit(s, path, true, codec, hash) == Completed(s.(orig := s.orig + |s.files[path]|))
    ensures !Classify(s.files[path], true, Visit(s, path, true, codec, hash).state.cache, other, hash).CacheHit?
  {
  }

  /** The batch stops at the first compressor error: what follows the
      failing part of the list is never visited. */
  lemma {:induction false} LoopAppend(s: State, a: seq<Path>, b: seq<Path>, write: bool, codec: Codec, hash: Hasher)
    requires InFiles(a + b, s.files)
    ensures InFiles(b, Loop(s, a, write, codec, hash).state.files)
    ensures Loop(s, a + b, write, codec, hash)
         == match Loop(s, a, write, codec, hash)
            case Aborted(t) => Aborted(t)
            case Completed(t) => Loop(t, b, write, codec, hash)
    decreases |a|
  {
    if a == [] {
      assert a + b == b;
    } else {
      assert (a + b)[0] == a[0] && (a + b)[1..] == a[1..] + b;
      match Visit(s, a[0], write, codec, hash)
      case Aborted(t) =>
      case Completed(t) => LoopAppend(t, a[1..], b, write, codec, hash);
    }
  }

  /** A dry run changes no file and no cache key, completes exactly when the
      compressor handles every listed file, and then computes the same
      totals as the npm version: every size counted, every size difference
      added. */
  lemma {:induction false} DryRun(s: State, images: seq<Path>, codec: Codec, hash: Hasher)
    requires InFiles(images, s.files)
    ensures var r := Loop(s, images, false, codec, hash);
            r.state.files == s.files && r.state.cache == s.cache
            && (r.Completed? <==> forall q :: q in images ==> codec(s.files[q]).Some?)
            && (r.Completed? ==> r.state == NpmIndex.Loop(s, images, false, codec, hash)
                                 && r.state.orig == s.orig + Lengths(s.files, images)
                                 && r.state.saved == s.saved + Estimate(s.files, images, codec))
    decreases |images|
  {
    if images != [] {
      NpmIndex.DryRun(s, images, codec, hash);
      var v := Visit(s, images[0], false, codec, hash);
      assert v.state == NpmIndex.Visit(s, images[0], false, codec, hash);
      if v.Completed? {
        DryRun(v.state, images[1..], codec, hash);
        NpmIndex.DryRun(v.state, images[1..], codec, hash);
      }
    }
  }

  /** Every listed image of a completed batch is counted in `orig`, cache
      hits included, at its size before the batch. */
  lemma {:induction false} Counted(s: State, images: seq<Path>, write: bool, codec: Codec, hash: Hasher)
    requires InFiles(images, s.files) && Distinct(images)
    requires Loop(s, images, write, codec, hash).Completed?
    ensures Loop(s, images, write, codec, hash).state.orig == s.orig + Lengths(s.files, images)
    decreases |images|
  {
    if images != [] {
      var v := Visit(s, images[0], write, codec, hash);
      DistinctTail(images);
      Counted(v.state, images[1..], write, codec, hash);
      LengthsFrame(v.state.files, s.files, images[1..]);
    }
  }

  /** In write mode `saved` only grows, and by no more than `orig`. */
  lemma {:induction false} SavedBounds(s: State, images: seq<Path>, codec: Codec, hash: Hasher)
    requires InFiles(images, s.files)
    ensures var r := Loop(s, images, true, codec, hash);
            s.saved <= r.state.saved && r.state.saved - s.saved <= r.state.orig - s.orig
    decreases |images|
  {
    if images != [] {
      var image := s.files[images[0]];
      if codec(image).Some? {
        WorthMeansShrinks(|codec(image).value|, |image|);
      }
      var v := Visit(s, images[0], true, codec, hash);
      if v.Completed? {
        SavedBounds(v.state, images[1..], codec, hash);
      }
    }
  }

  /** In write mode a file is only ever replaced by the compressor's output
      for its original content, and only above the threshold. */
  lemma {:induction false} WritesOnlyAboveThreshold(s: State, images: seq<Path>, codec: Codec, hash: Hasher)
    requires InFiles(images, s.files) && Distinct(images)
    ensures var r := Loop(s, images, true, codec, hash).state;
            forall q :: q in s.files && r.files[q] != s.files[q] ==>
              q in images && codec(s.files[q]) == Some(r.files[q]) && Worth(|r.files[q]|, |s.files[q]|)
    decreases |images|
  {
    if images != [] {
      var v := Visit(s, images[0], true, codec, hash);
      DistinctTail(images);
      if v.Completed? {
        WritesOnlyAboveThreshold(v.state, images[1..], codec, hash);
      }
    }
  }

  /** In write mode `saved` is exactly what the rewritten files lost, and
      the cache gains exactly the keys of the rewritten files' new content:
      a rejected file leaves no key behind. */
  lemma {:induction false} OnlyAcceptsCount(s: State, images: seq<Path>, codec: Codec, hash: Hasher)
    requires InFiles(images, s.files) && Distinct(images)
    ensures var r := Loop(s, images, true, codec, hash).state;
            r.saved == s.saved + Shrinkage(s.files, r.files, images)
            && r.cache == s.cache + RewrittenKeys(s.files, r.files, images, hash)
    decreases |images|
  {
    if images != [] {
      var p := images[0];
      var v := Visit(s, p, true, codec, hash);
      var r := Loop(s, images, true, codec, hash).state;
      DistinctTail(images);
      var image := s.files[p];
      if codec(image).Some? {
        WorthMeansShrinks(|codec(image).value|, |image|);
      }
      if v.Completed? {
        OnlyAcceptsCount(v.state, images[1..], codec, hash);
      } else {
        NothingRewritten(s.files, images[1..], hash);
      }
      ShrinkageFrame(v.state.files, s.files, r.files, images[1..]);
      RewrittenKeysFrame(v.state.files, s.files, r.files, images[1..], hash);
    }
  }

  lemma {:induction false} NothingRewritten(files: map<Path, Bytes>, images: seq<Path>, hash: Hasher)
    requires InFiles(images, files)
    ensures Shrinkage(files, files, images) == 0
    ensures RewrittenKeys(files, files, images, hash) == {}
    decreases |images|
  {
    if images != [] {
      NothingRewritten(files, images[1..], hash);
    }
  }

  /** A file that a write-mode pass leaves alone: its hash is cached, or the
      compressor's output for it is below the threshold. */
  predicate Settled(s: State, path: Path, codec: Codec, hash: Hasher)
    requires path in s.files
  {
    var image := s.files[path];
    hash(image) in s.cache || (codec(image).Some? && !Worth(|codec(image).value|, |image|))
  }

  /** A write-mode pass over settled files completes and changes nothing but
      `orig`. */
  lemma {:induction false} SettledPassIsNoOp(s: State, images: seq<Path>, codec: Codec, hash: Hasher)
    requires InFiles(images, s.files)
    requires forall q :: q in images ==> Settled(s, q, codec, hash)
    ensures Loop(s, images, true, codec, hash) == Completed(s.(orig := s.orig + Lengths(s.files, images)))
    decreases |images|
  {
    if images != [] {
      assert Settled(s, images[0], codec, hash);
      var v := s.(orig := s.orig + |s.files[images[0]]|);
      assert Visit(s, images[0], true, codec, hash) == Completed(v);
      forall q | q in images[1..] ensures Settled(v, q, codec, hash) {
        assert Settled(s, q, codec, hash);
      }
      SettledPassIsNoOp(v, images[1..], codec, hash);
    }
  }

  /** After a completed write-mode batch, every listed file is settled. */
  lemma {:induction false} CompletedLeavesSettled(s: State, images: seq<Path>, codec: Codec, hash: Hasher)
    requires InFiles(images, s.files) && Distinct(images)
    requires Loop(s, images, true, codec, hash).Completed?
    ensures var r := Loop(s, images, true, codec, hash).state;
            forall q :: q in images ==> Settled(r, q, codec, hash)
    decreases |images|
  {
    if images != [] {
      var v := Visit(s, images[0], true, codec, hash).state;
      DistinctTail(images);
      CompletedLeavesSettled(v, images[1..], codec, hash);
      var image := s.files[images[0]];
      if codec(image).Some? {
        WorthMeansShrinks(|codec(image).value|, |image|);
      }
    }
  }

  /** Running the same write-mode batch again after it completed: the rerun
      completes, changes no file and no cache key, and adds nothing to
      `saved`. Accepted files are cache hits; rejected ones are compressed
      again and rejected again. */
  lemma RerunIsNoOp(s: State, images: seq<Path>, codec: Codec, hash: Hasher)
    requires InFiles(images, s.files) && Distinct(images)
    requires Loop(s, images, true, codec, hash).Completed?
    ensures var r := Loop(s, images, true, codec, hash).state;
            var again := Loop(r, images, true, codec, hash);
            again.Completed? && again.state.files == r.files && again.state.cache == r.cache
            && again.state.saved == r.saved && again.state.orig == r.orig + Lengths(r.files, images)
  {
    var r := Loop(s, images, true, codec, hash).state;
    assert InFiles(images, r.files);
    assert forall q :: q in images ==> Settled(r, q, codec, hash) by {
      CompletedLeavesSettled(s, images, codec, hash);
    }
    SettledPassIsNoOp(r, images, codec, hash);
  }

  /** A dry run of the whole of `run` leaves every file and the cache as they
      were, whether it completes or a compressor throws. */
  lemma DryRunPasses(s: State, listing: Listing, plugins: Plugins, hash: Hasher)
    requires Listed(listing, s.files)
    ensures var r := Passes(s, listing, plugins, false, hash);
            r.state.files == s.files && r.state.cache == s.cache
  {
    var zero := State(s.files, s.cache, 0, 0);
    DryRun(zero, listing.png, plugins.pngquantZopfli, hash);
    DryRun(zero, listing.jpeg, plugins.mozjpeg, hash);
    DryRun(zero, listing.gif, plugins.gifsicle, hash);
    DryRun(zero, listing.svg, plugins.svgo, hash);
  }

  /** One iteration of the `for (const imagePath of images)` loop; `memory`
      is the loaded cache, used only in write mode. */
  method VisitPath(ws: Workspace, memory: set<Key>, path: Path, write: bool, codec: Codec, hash: Hasher)
    returns (memory': set<Key>, threw: bool)
    requires path in ws.files
    modifies ws`files, ws`orig, ws`saved
    ensures var r := Visit(State(old(ws.files), memory, old(ws.orig), old(ws.saved)), path, write, codec, hash);
            threw == r.Aborted? && ws.files == r.state.files && memory' == r.state.cache
            && ws.orig == r.state.orig && ws.saved == r.state.saved
  {
    memory', threw := memory, false;
    var image := ws.files[path];
    ws.orig := ws.orig + |image|;
    if write && hash(image) in memory {
      return;
    }
    var result := codec(image);
    if result.None? {
      threw := true;
      return;
    }
    var compressed := result.value;
    if write && Worth(|compressed|, |image|) {
      ws.files := ws.files[path := compressed];
      memory' := memory + {hash(compressed)};
      ws.saved := ws.saved + |image| - |compressed|;
    } else if !write {
      ws.saved := ws.saved + |image| - |compressed|;
    }
  }

  /** `compress(imageminPlugins, images, options)`: the counters start at
      zero, the cache is loaded only in write mode and saved only when the
      loop gets through every path. */
  method Compress(ws: Workspace, images: seq<Path>, write: bool, codec: Codec, hash: Hasher) returns (threw: bool)
    requires InFiles(images, ws.files)
    modifies ws
    ensures var r := Loop(State(old(ws.files), old(ws.cache), 0, 0), images, write, codec, hash);
            threw == r.Aborted? && ws.files == r.state.files
            && ws.orig == r.state.orig && ws.saved == r.state.saved
            && ws.cache == if threw then old(ws.cache) else r.state.cache
  {
    ws.orig, ws.saved := 0, 0;
    ghost var start := ws.Snapshot();
    var memory: set<Key> := {};
    if write {
      memory := ws.cache;
    }
    threw := false;
    for i := 0 to |images|
      invariant ws.files.Keys == start.files.Keys
      invariant ws.cache == start.cache
      invariant !write ==> memory == {}
      invariant Loop(start, images, write, codec, hash)
             == Loop(State(ws.files, if write then memory else ws.cache, ws.orig, ws.saved),
                     images[i..], write, codec, hash)
    {
      ghost var before := State(ws.files, if write then memory else ws.cache, ws.orig, ws.saved);
      Unroll(before, images, i, write, codec, hash);
      if !write {
        DryVisitIgnoresCache(before, memory, images[i], codec, hash);
      }
      memory, threw := VisitPath(ws, memory, images[i], write, codec, hash);
      if threw {
        return;
      }
    }
    if write {
      ws.cache := memory;
    }
  }

  /** A dry-run visit neither reads nor changes the cache. */
  lemma DryVisitIgnoresCache(s: State, cache: set<Key>, path: Path, codec: Codec, hash: Hasher)
    requires path in s.files
    ensures Visit(s.(cache := cache), path, false, codec, hash)
         == match Visit(s, path, false, codec, hash)
            case Completed(t) => Completed(t.(cache := cache))
            case Aborted(t) => Aborted(t.(cache := cache))
  {
  }

  /** `totalSaving = await compress(...)` followed by the two additions. */
  method RunBatch(ws: Workspace, orig: int, compressed: int, images: seq<Path>, write: bool, codec: Codec,
                  hash: Hasher) returns (orig': int, compressed': int, threw: bool)
    requires InFiles(images, ws.files)
    modifies ws
    ensures var r := AddBatch(State(old(ws.files), old(ws.cache), orig, compressed), images, write, codec, hash);
            threw == r.Aborted? && ws.files == r.state.files && ws.cache == r.state.cache
            && (!threw ==> orig' == r.state.orig && compressed' == r.state.saved)
    ensures ws.orig == orig' - orig && ws.saved == compressed' - compressed
  {
    threw := Compress(ws, images, write, codec, hash);
    orig' := orig + ws.orig;
    compressed' := compressed + ws.saved;
  }

  /** `run(args)`: usage when the arguments do not parse, when `help` is set
      or when `src` is empty; otherwise the four batches, an uncaught
      compressor error ending the run, and 'success' with the totals logged. */
  method Run(ws: Workspace, parsed: Option<Options>, listing: Listing, plugins: Plugins, hash: Hasher)
    returns (outcome: Outcome)
    requires Listed(listing, ws.files)
    modifies ws
    ensures parsed.None? || ShowsUsage(parsed.value) ==> outcome == PrintedUsage && unchanged(ws)
    ensures parsed.Some? && !ShowsUsage(parsed.value) ==>
      var r := Passes(State(old(ws.files), old(ws.cache), 0, 0), listing, plugins, parsed.value.write, hash);
      ws.files == r.state.files && ws.cache == r.state.cache
      && outcome == if r.Aborted? then Threw else Reported(r.state.orig, r.state.saved)
  {
    if parsed.None? {
      return PrintedUsage;
    }
    var options := parsed.value;
    if ShowsUsage(options) {
      return PrintedUsage;
    }
    var write := options.write;
    var orig, compressed, threw := 0, 0, false;
    orig, compressed, threw := RunBatch(ws, orig, compressed, listing.png, write, plugins.pngquantZopfli, hash);
    if threw {
      return Threw;
    }
    orig, compressed, threw := RunBatch(ws, orig, compressed, listing.jpeg, write, plugins.mozjpeg, hash);
    if threw {
      return Threw;
    }
    orig, compressed, threw := RunBatch(ws, orig, compressed, listing.gif, write, plugins.gifsicle, hash);
    if threw {
      return Threw;
    }
    orig, compressed, threw := RunBatch(ws, orig, compressed, listing.svg, write, plugins.svgo, hash);
    if threw {
      return Threw;
    }
    outcome := Reported(orig, compressed);
  }
}
