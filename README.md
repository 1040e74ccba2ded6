# minify-image: the compression gatekeeper

minify-image walks a directory for PNG, JPEG, GIF and SVG files. It recompresses
each one with an imagemin plugin list, and overwrites it only when the result
is small enough. It remembers processed files in a persistent cache keyed by
the SHA-1 of their content, so a later run skips them. In dry-run mode (no
`--write`) it touches nothing and only estimates the saving.

This project models the one piece with real decisions: the per-batch `compress`
loop and the top level that runs it once per format and sums the totals. The
repository has two versions of this code, and they behave differently:

- `npm/src/index.js` (the published version, module `NpmIndex`). A compressor
  error skips the file. A rejected file's original hash is cached. A dry run
  adds every size difference to the estimate. The top level runs five batches:
  PNG, JPEG with mozjpeg, JPEG again with jpegtran, GIF and SVG.
- `src/index.ts` (module `TsIndex`). A rejected file is not cached. Savings are
  only added on accept in write mode. A compressor error is not caught: it ends
  the batch and the whole `run`, and that batch's cache is never saved. `run`
  first checks the options and returns 'success' after four batches.

Module `Images` holds what both share:

- the byte, path and key types;
- the threshold `Worth(c, o)`, which is `c * 1.15 < o` read as `115*c < 100*o`;
- the per-file `Classify` decision;
- the `State` value that the specification functions thread through;
- the `Workspace` class that the methods update in place.

`Workspace` has four fields: the file map, the persisted cache set, and the two
`totalSaving` counters `orig` and `saved` (the source calls the latter
`compressed`).

Each version has two layers:

- Specification functions: `Visit` (one iteration), `Loop` (the `for … of`
  loop), `AddBatch` (one `compress` call plus the additions) and `Passes` (the
  whole top level).
- Imperative methods: `VisitPath`, `Compress`, `RunBatch` and `Run`. They
  mutate a `Workspace`, and each is proved equal to its specification function.
  `Compress` keeps the cache it loads in a local variable and writes it back
  only when the source calls `cache.save`.

The lemmas state the source's promises about the specification functions.

The hash and the compressors are parameters of function type: `hash` is any
function of the bytes, and no lemma assumes it is collision-free. A compressor
returns `None` where `imagemin.buffer` throws.

Two points about the code's behaviour shape the contracts:

- The usage text says "Minify if compressed size lower than 15%"
  (npm/src/index.js:25, src/index.ts:21). The test `c * 1.15 < o` is not quite that. Read over
  the rationals, it accepts when more than 3/23 (about 13%) of the size is
  saved, so a result exactly 15% smaller is accepted (`Worth(850, 1000)`).
  When the original is exactly 1.15 times the compressed size, the source's
  answer depends on floating-point rounding: `100 * 1.15` is
  114.99999999999999, so 100→115 is accepted, while 20→23 is rejected. The
  model's `Worth` rejects every such exact-ratio pair.
- Neither version catches read or write errors. The TypeScript version does
  not catch compressor errors either, so there such an error ends the run.

## Model

| member | source | states |
|---|---|---|
| Images.WorthMeansShrinks | npm/src/index.js:177-178 | a result is accepted iff it saves more than 3/23 of the original; an accepted result is strictly smaller; a non-empty file compressed by at least 15% is always accepted |
| Images.Worth | npm/src/index.js:178 | the threshold `c * 1.15 < o` (also src/index.ts:181): an accepted result is strictly smaller than the original |
| Images.WorthBoundary | src/index.ts:180-181 | 20→23 and 1000→900 are rejected, 1000→850 and 1000→820 are accepted, as the source's double test decides them; in the source other exact 1.15 ratios such as 100→115 are decided by rounding, and the model rejects them all |
| Images.Classify | npm/src/index.js:148-194 | cache hit iff write mode and the content hash is cached; compressor failure only when the cache did not hit; estimate iff dry run; accept/reject in write mode by the threshold, carrying the compressor's output |
| NpmIndex.Visit | npm/src/index.js:143-195 | one iteration adds the file's length to `orig`, changes no path other than its own, keeps the set of paths and only adds cache keys |
| NpmIndex.Loop | npm/src/index.js:143-196 | the loop keeps the set of paths, leaves unlisted files unchanged and only adds cache keys |
| NpmIndex.AddBatch | npm/src/index.js:87-89 | one `compress` call summed into the totals keeps the set of paths and only adds cache keys |
| NpmIndex.Passes | npm/src/index.js:78-122 | the five `compress` calls in order (PNG, JPEG by mozjpeg, JPEG again by jpegtran, GIF, SVG) keep the set of paths and only add cache keys |
| NpmIndex.VisitPath | npm/src/index.js:144-195 | the imperative iteration (skip on cache hit or error, write and cache the compressed hash on accept, cache the original hash on reject, estimate in dry run) yields exactly `Visit` |
| NpmIndex.Compress | npm/src/index.js:131-204 | counters start at zero, cache loaded and saved only in write mode; the new files, cache and counters are exactly `Loop` from the old files and cache |
| NpmIndex.RunBatch | npm/src/index.js:94-96 | a `compress` call followed by `orig +=` and `compressed +=` yields exactly `AddBatch`; the workspace counters hold that batch's `totalSaving` |
| NpmIndex.Run | npm/src/index.js:66-122 | when the usage gate `ShowsUsage` holds (`help` set or `src` empty) usage is printed and nothing changes; otherwise the five batches run in order and the reported totals, files and cache are those of `Passes` |
| NpmIndex.CacheHitSkips | npm/src/index.js:148-154 | a cached file is left unchanged, adds only its length to `orig`, and the result does not depend on the compressor |
| NpmIndex.FailureSkips | npm/src/index.js:159-166 | a compressor error leaves files, cache and `saved` unchanged and the loop goes on |
| NpmIndex.TotalsAreAdditive | npm/src/index.js:132-135 | a batch only adds to the counters it starts from |
| NpmIndex.AddBatchContinuesCount | npm/src/index.js:73-96 | summing per-batch totals equals one count continued across batches |
| NpmIndex.LoopAppend | npm/src/index.js:143-196 | processing a list in two parts equals processing it in one go |
| NpmIndex.DryRun | npm/src/index.js:139-148 | dry run: no file or cache change, `orig` grows by every listed size, `saved` by every size difference the compressor gives (negative ones included) |
| NpmIndex.Counted | npm/src/index.js:145-146 | every listed image is counted in `orig` at its pre-batch size, cache hits and errors included |
| NpmIndex.SavedBounds | npm/src/index.js:178-186 | in write mode `saved` never decreases and grows by no more than `orig` |
| NpmIndex.WritesOnlyAboveThreshold | npm/src/index.js:178-179 | in write mode a changed file is listed, its new content is exactly the compressor's output for its old content, and that output passes the threshold |
| NpmIndex.SavedIsShrinkage | npm/src/index.js:174-195 | in write mode `saved` grows by exactly what the rewritten files lost |
| NpmIndex.ProcessedFilesCached | npm/src/index.js:174-192 | in write mode every file the compressor handled ends with the hash of its current content cached (compressed hash on accept, original on reject) |
| NpmIndex.SettledPassIsNoOp | npm/src/index.js:148-166 | a write-mode pass over files that are cached or fail to compress changes nothing but `orig` |
| NpmIndex.RerunIsNoOp | npm/src/index.js:148-192 | running the same write-mode batch twice: the second run changes no file, no key and adds nothing to `saved` |
| NpmIndex.CachedFileStays | npm/src/index.js:148-154 | a file whose current content has its hash cached is left as it is by any later write-mode pass, whatever the compressor |
| NpmIndex.SecondPassSkips | npm/src/index.js:148-154 | a later write-mode pass over any list, with any compressor, leaves alone every file the first pass compressed without error or found cached; when the first pass compressed every file of the later list, the later pass changes nothing but `orig` |
| NpmIndex.JpegtranSkipsMozjpegOutput | npm/src/index.js:84-96 | the jpegtran batch right after the mozjpeg batch, over a list that may hold the files mozjpeg failed on, leaves alone every file mozjpeg compressed or found cached; when mozjpeg compressed every file of the jpegtran list, it changes nothing but `orig` |
| NpmIndex.DryRunPasses | npm/src/index.js:73-122 | a dry run of the whole top level leaves every file and the cache as they were |
| TsIndex.Visit | src/index.ts:153-195 | one iteration adds the file's length to `orig`, changes no other path, keeps the set of paths and only adds cache keys |
| TsIndex.Loop | src/index.ts:153-196 | the loop, which stops at the first compressor error, keeps the set of paths, leaves unlisted files unchanged and only adds cache keys |
| TsIndex.AddBatch | src/index.ts:105-107 | one `compress` call summed into the totals keeps the set of paths and only adds cache keys |
| TsIndex.Passes | src/index.ts:96-129 | the four `compress` calls in order keep the set of paths and only add cache keys; a throw in the PNG batch is the result of the whole run |
| TsIndex.ThrowEndsRun | src/index.ts:96-129 | a compressor error in the JPEG, GIF or SVG batch ends `run`: the result is that aborted batch, no later batch's list is visited, and the persisted cache is the one the last completed batch saved (the PNG case is in `Passes`) |
| TsIndex.VisitPath | src/index.ts:154-195 | the imperative iteration (skip on cache hit, throw on compressor error, write and cache on accept, nothing on reject, estimate in dry run) yields exactly `Visit` |
| TsIndex.Compress | src/index.ts:141-204 | the new files and counters are those of `Loop`; the cache is saved only if the loop completes, and a throw is reported |
| TsIndex.RunBatch | src/index.ts:119-129 | a `compress` call followed by the two additions yields exactly `AddBatch`, including a throw; the workspace counters hold that batch's `totalSaving` |
| TsIndex.Run | src/index.ts:71-139 | a parse error, or the usage gate `ShowsUsage` (`help` set or `src` empty), prints usage and changes nothing; otherwise the four batches run until one throws, and the result is a throw or the totals of `Passes` ('success') |
| TsIndex.CacheHitSkips | src/index.ts:158-166 | a cached file is left unchanged, adds only its length to `orig`, and the result does not depend on the compressor |
| TsIndex.FailureAborts | src/index.ts:169-172 | a compressor error the cache did not pre-empt aborts the loop with only `orig` advanced |
| TsIndex.RejectIsForgotten | src/index.ts:180-195 | a rejected file's visit writes nothing, caches nothing and credits nothing; the next run compresses it again unless an accepted file of the same run ends with content of the same hash (the cache such a run ends with is given by `OnlyAcceptsCount`) |
| TsIndex.LoopAppend | src/index.ts:153-196 | after a throw in the first part of the list, nothing of the rest is visited; otherwise the rest continues from where the first part ended |
| TsIndex.DryRun | src/index.ts:149-195 | dry run: no file or cache change; it completes iff the compressor handles every file, and then its totals equal the npm version's: every size counted and every size difference added |
| TsIndex.Counted | src/index.ts:155-156 | every listed image of a completed batch is counted in `orig` at its pre-batch size, cache hits included |
| TsIndex.SavedBounds | src/index.ts:181-192 | in write mode `saved` never decreases and grows by no more than `orig` |
| TsIndex.WritesOnlyAboveThreshold | src/index.ts:181-182 | in write mode a changed file is listed, its new content is exactly the compressor's output for its old content, and that output passes the threshold |
| TsIndex.OnlyAcceptsCount | src/index.ts:181-195 | in write mode `saved` grows by exactly what the rewritten files lost, and the cache gains exactly the hashes of their new content: rejects add no key |
| TsIndex.SettledPassIsNoOp | src/index.ts:158-195 | a write-mode pass over files that are cached or below the threshold completes and changes nothing but `orig` |
| TsIndex.CompletedLeavesSettled | src/index.ts:181-190 | after a completed write-mode batch every listed file is cached or below the threshold |
| TsIndex.RerunIsNoOp | src/index.ts:158-192 | rerunning a completed write-mode batch completes and changes no file, no key and no `saved` |
| TsIndex.DryRunPasses | src/index.ts:91-129 | a dry run of the whole `run` leaves every file and the cache as they were, whether or not it throws |

## Left out

- File discovery with `fast-glob` (case-insensitive patterns, the `node_modules` and `vendor` ignores). Each format's image list is a given sequence of paths that exist. The npm version lists the JPEG files a second time for jpegtran, so that list is a separate parameter.
- Command-line parsing and the usage text. `commandLineArgs` yields an `Options` value, and in the TypeScript version a parse error is `None`. `--src` given without a value (null) or with an empty one is folded into the empty string; an absent `--src` takes its default '.' (npm/src/index.js:55, src/index.ts:51) and runs on the current directory.
- The codecs (pngquant, zopfli, mozjpeg, jpegtran, gifsicle, svgo) and their options. Each is an arbitrary but deterministic function from bytes to an optional result: the same content always gives the same output or the same error. Both `RerunIsNoOp` lemmas rely on this (a file that failed fails again, and in the TypeScript version a rejected file is rejected again).
- SHA-1 and base64. The key is an arbitrary function of the content, and collisions are allowed.
- The `flat-cache` file format and its load/save round trip. The persisted cache is a set that lasts between batches.
- Logging (`consola`, `loglevel`), `prettyBytes` and the floating-point percentage of `calcPercent`.
- The IEEE-754 rounding of `length * 1.15`. The threshold is the exact rational comparison `115*c < 100*o`. The two disagree only when `o` is exactly 1.15 times `c`: the source then accepts some pairs, such as 100→115 (`100 * 1.15` is 114.99999999999999), and rejects others, such as 20→23. The model rejects them all.
- `async`/`await`. Processing is strictly sequential.
- A failing `readFileSync` or `writeFileSync`, and a parse error in the npm version. None of these is caught, and the process ends. The methods require every listed path to be in the file map.
- NpmIndex.Run: does not state what the `orig` and `saved` fields of the workspace hold afterwards. They are the last batch's `totalSaving`, which the source only reads through `orig`/`compressed`.
- TsIndex.Run: does not state the `orig` and `saved` fields of the workspace afterwards, for the same reason.
- NpmIndex.Counted: proved only for lists without repeated paths, which is what glob returns. A repeated path would be counted at its size when revisited.
- NpmIndex.WritesOnlyAboveThreshold: proved for lists without repeated paths.
- NpmIndex.SavedIsShrinkage: proved for lists without repeated paths.
- NpmIndex.ProcessedFilesCached: proved for lists without repeated paths.
- NpmIndex.RerunIsNoOp: proved for lists without repeated paths.
- NpmIndex.SecondPassSkips: proved for a first list without repeated paths; the later list is unrestricted.
- NpmIndex.JpegtranSkipsMozjpegOutput: proved for a mozjpeg list without repeated paths.
- TsIndex.Counted: proved for completed batches over lists without repeated paths.
- TsIndex.WritesOnlyAboveThreshold: proved for lists without repeated paths.
- TsIndex.OnlyAcceptsCount: proved for lists without repeated paths.
- TsIndex.CompletedLeavesSettled: proved for lists without repeated paths.
- TsIndex.RerunIsNoOp: proved for lists without repeated paths.
- The two versions in write mode are not compared. Because hashes may collide, the npm version's cached reject keys can turn a later file into a cache hit that the TypeScript version would compress.
