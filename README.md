# Photography portfolio: upload script and gallery rules, in Dafny

This project models two parts of a static photography portfolio.

The first part is the batch script that prepares collection folders and uploads
them to a cloud storage bucket (`upload/upload.ts`). It walks
`upload/photos/<collection>/` and treats each file in one of two ways:

- A photo whose name contains `_album.jpg` is a cover photo. The script blurs it
  and uploads the cover and its `_albumblurred.jpg` companion under
  `<collection>/`.
- Every other photo is re-encoded and uploaded under
  `<collection>/{watermarked, <optimized dir>, blur}/`:
  - The optimized variant is re-encoded at rising or falling JPEG quality until it
    is between 700 and 1000 KB, or until the iteration budget of 14.5 is passed.
  - The full-resolution variant gets both watermarks.
  - The blur variant is a small placeholder.

In fast mode, anything the store already holds is skipped.

The second part is the gallery's front-end rules:

- folder-name parsing and the image loader (`helpers/helpers.ts`);
- the lightbox state machine and its image addresses (`components/Lightbox.tsx`);
- the collage cells and style (`components/PhotoCollage.tsx`);
- the album card (`components/PhotoAlbum.tsx`);
- the album grid's filter (`components/PhotoAlbumGrid.tsx`).

Modules, file by file:

- `strings.dfy` (`Strings`): the JavaScript string operations the code relies on.
  - `indexOf`, `includes` and `endsWith`.
  - `substring`, which clamps and swaps its indices.
  - `replace` with a string pattern, which replaces the first occurrence only.
  - `replace` with a global one-character regular expression.
  - Decimal rendering of numbers in template literals.
- `globals.dfy` (`Globals`) and `types.dfy` (`Types`): the constants of
  `data/globals.ts` and the records of `types/Collection.ts`.
  - `gcpOptimizedDirName` is imported by three core files but not defined in
    `data/globals.ts`. It is an unspecified constant `OptimizedDirName`, known only
    to differ from `"watermarked"` and `"blur"`.
- `helpers.dfy` (`Helpers`): `folderToTitle`, `folderToMainDateString` and `imageLoader`.
- `upload_search.dfy` (`QualitySearch`): the size-targeting quality search, as a
  recursive function over an encoder oracle (quality to byte size).
- `upload_rules.dfy` (`UploadRules`): the pure decisions of the script.
  - The fast flag and the existence gates.
  - Remote paths and album classification.
  - Blurred companion names, the blur resize and the watermark choice.
- `upload_pipeline.dfy`:
  - `UploadPipeline` holds the walk itself, as class `Uploader`.
    - It records the actions (mkdir, image write, upload, log) and the set of
      existing local paths.
    - Its methods `UploadFile`, `OptimizeAndUpload` (recursive),
      `BlurAndUploadAlbumPhoto`, `UploadNewFile`, `UploadFolder` and
      `ReadDirAndUpload` (loops) are each specified by a function of the state
      before the call.
  - `UploadPipelineProperties` proves what the walk does, in terms of those functions.
- `lightbox.dfy` (`Lightbox`): the index arithmetic, the displayed addresses, and
  class `LightboxState` for the shared `(index, fullRes)` state. That state starts
  as `(-1, false)` in `components/Collection.tsx`.
  - Nothing in the modelled code opens the lightbox.
    `components/PhotoCollage.tsx` does not take the index setter that
    `components/Collection.tsx` passes to it.
- `photo_collage.dfy` (`PhotoCollage`), `photo_album.dfy` (`PhotoAlbum`),
  `photo_album_grid.dfy` (`PhotoAlbumGrid`): the three components. The grid's
  filter state is class `AlbumFilter`.

`data/globals.ts` also names `web`, `mobile` and `mobileGrid` directories, but
`upload/upload.ts:53` writes only three output directories (full resolution,
optimized, blur). The script creates each one only when `existsSync` reports it
missing (`upload/upload.ts:227-235`) and never deletes one.

Parameters that stand in for the outside world:

- the fast flag, from the argument list;
- the storage bucket's `exists` answer per remote path, as a snapshot taken before the run;
- the byte size the encoder writes for a source and a clamped quality;
- the pixel dimensions of each source;
- the directory listings.

## Model

| member | source | states |
|---|---|---|
| Strings.IndexOf | helpers/helpers.ts:13 | -1 exactly when the pattern occurs nowhere; otherwise an occurrence with no earlier one |
| Strings.Substring | helpers/helpers.ts:23 | for indices in order and in range, the slice; an end of 0 or less gives the prefix up to the clamped start |
| Strings.ReplaceFirst | upload/upload.ts:183-184 | unchanged without an occurrence; otherwise only the first occurrence is swapped, the rest kept |
| Strings.ReplaceAllChar | helpers/helpers.ts:13 | same length; each `_` becomes a space and every other character is kept |
| Strings.DigitsValueOfNatToString | helpers/helpers.ts:35 | the decimal rendering of a number reads back as that number |
| Strings.DecimalBetweenOf | helpers/helpers.ts:35 | a number placed between two fixed parts of a template literal reads back from between them, with no leading zero |
| Helpers.FolderToTitle | helpers/helpers.ts:12-14 | the title has no `_`; it is as long as the part after the first `_` |
| Helpers.FolderToMainDateString | helpers/helpers.ts:22-24 | the date is a prefix of the folder name and has no `_` |
| Helpers.NoUnderscore | helpers/helpers.ts:12-24 | without `_`, the title is the folder name itself and the date is empty |
| Helpers.SplitAtFirstUnderscore | helpers/helpers.ts:12-24 | date + `_` + rest = folder; the title is the rest with `_` turned into spaces |
| Helpers.CareerFairFolder | helpers/helpers.ts:12-24 | `9-15-2021_RS_Career_Fair_Prep` gives date `9-15-2021` and title `RS Career Fair Prep` |
| Helpers.ImageLoaderFormat | helpers/helpers.ts:34-36 | a loader URL is the bucket URL, `/`, the source, `?width=`, then the width in decimal without leading zeros |
| Helpers.ImageLoaderRequest | helpers/helpers.ts:34-36 | two loader URLs are equal iff source and width are; quality has no effect |
| QualitySearch.NumIterationsValue | upload/upload.ts:46-50 | the iteration budget computed from the constants is 14.5 |
| QualitySearch.ClampQuality | upload/upload.ts:119 | the encoder always gets a quality in [0, 100], the requested one when it is in range |
| QualitySearch.SizeKB | upload/upload.ts:122 | the size in KB is the byte count over 1024, rounded to nearest with halves up |
| QualitySearch.AcceptsIff | upload/upload.ts:124-128 | an attempt is accepted iff its iteration is 15 or more, or 700 <= KB <= 1000 |
| QualitySearch.Increment | upload/upload.ts:160 | the step is 5 exactly when 15 < q < 85, and 2 otherwise |
| QualitySearch.NextQuality | upload/upload.ts:160-162 | after a rejection, quality rises when the file was under 700 KB and falls when over 1000 KB, by one step |
| QualitySearch.Attempts | upload/upload.ts:102-171 | the search makes at least one attempt, at most 16 - iteration, and its last attempt is accepted |
| QualitySearch.AttemptsStep | upload/upload.ts:119-168 | the k-th attempt is at iteration + k, encodes the clamped quality, and every attempt before the last was rejected and led to the next quality |
| QualitySearch.SearchOutcome | upload/upload.ts:124-128 | from quality 50, at most 16 attempts; the accepted size is in band unless all 16 were used |
| QualitySearch.RejectedAttempts | upload/upload.ts:159-168 | every rejected attempt was before iteration 15, out of band, and moved the quality toward the band |
| QualitySearch.DriftingSearch | upload/upload.ts:160-168 | with every encode too small (or too large), the search uses the whole budget and drifts one step per attempt |
| QualitySearch.DriftFromStart | upload/upload.ts:160-162 | fifteen one-sided steps from 50 reach 101 upwards and -1 downwards |
| QualitySearch.QualityLeavesRangeButEncodeDoesNot | upload/upload.ts:119-162 | always too small: quality reaches 101 but 100 is encoded; always too large: -1, and 0 is encoded |
| UploadRules.FastUploadRequested | upload/upload.ts:38 | fast mode iff the argument list holds `doFastUpload` |
| UploadRules.SkipsUploadIff | upload/upload.ts:72-83 | an upload is skipped iff fast mode is on and no existence answer is false; never without fast mode |
| UploadRules.Flat | upload/upload.ts:76 | flattening keeps exactly the answers of the nested lists |
| UploadRules.DoUpload | upload/upload.ts:250-261 | a photo is processed unless fast mode is on and all three remote paths exist |
| UploadRules.RegularRemotePaths | upload/upload.ts:246-248 | three paths `folder/dir/file`, one per output directory, in the order full, optimized, blur |
| UploadRules.RegularRemotePathsDistinct | upload/upload.ts:246-248 | the three remote paths of a photo are pairwise different |
| UploadRules.IsAlbumPhoto | upload/upload.ts:241 | a file is an album photo iff the album ending occurs anywhere in its name |
| UploadRules.BlurredAlbumPath | upload/upload.ts:183-184 | a path without the album ending is unchanged; otherwise it grows by 7 characters |
| UploadRules.BlurredAlbumPathOfEnding | upload/upload.ts:183-184 | when the album ending first occurs at the end, the blurred path ends in `_albumblurred.jpg` instead |
| UploadRules.BlurredNameIsNotAlbum | upload/upload.ts:241 | `x_albumblurred.jpg` is not an album photo when `x` has no album ending |
| UploadRules.BlurResize | upload/upload.ts:133-137 | height is bounded to 500 iff portrait, width iff landscape; never both; neither for a square |
| UploadRules.WatermarkFor | upload/upload.ts:114-150 | the large logos iff the path contains `DSCF`, the small ones otherwise |
| UploadPipeline.LocalDirs | upload/upload.ts:223-225 | one local output directory per output directory name, in order |
| UploadPipeline.Uploader.UploadFile | upload/upload.ts:72-86 | records an upload unless fast mode finds the remote path stored; nothing else changes |
| UploadPipeline.Uploader.OptimizeAndUpload | upload/upload.ts:102-171 | the recursive search appends one optimized write per attempt, then the finishing actions; the three output files exist afterwards |
| UploadPipeline.Uploader.FinishUpload | upload/upload.ts:129-157 | blur write, full-resolution write, then the uploads of full, optimized and blur files |
| UploadPipeline.Uploader.BlurAndUploadAlbumPhoto | upload/upload.ts:179-199 | writes the blurred companion, then uploads the cover and the companion under their gates |
| UploadPipeline.Uploader.UploadNewFile | upload/upload.ts:237-277 | one folder entry: routed to the album branch, the gated regular branch, or the directory check |
| UploadPipeline.Uploader.UploadFolder | upload/upload.ts:214-281 | creates the missing output directories, then handles each entry in listing order; a non-directory is logged |
| UploadPipeline.Uploader.ReadDirAndUpload | upload/upload.ts:208-284 | handles each entry of the upload directory in listing order |
| UploadPipeline.AttemptsUnfold | upload/upload.ts:121-168 | one search step: the write of this attempt, then either the finish or the search from the next quality |
| UploadPipelineProperties.UploadFileUploads | upload/upload.ts:72-83 | `uploadFile` uploads exactly the pending remote path, from the given local file |
| UploadPipelineProperties.FinishUploads | upload/upload.ts:153-157 | the accepted branch uploads the pending full, optimized and blur paths, in that order |
| UploadPipelineProperties.OptimizeUploads | upload/upload.ts:153-157 | whatever the search does, the uploads are the pending full, optimized and blur paths, in that order |
| UploadPipelineProperties.RegularPhotoOutcome | upload/upload.ts:245-270 | a regular photo is left alone iff fast mode finds all three paths stored; otherwise its outputs exist and exactly its pending paths are uploaded; all three without fast mode |
| UploadPipelineProperties.AlbumPhotoOutcome | upload/upload.ts:179-244 | a cover is always blurred again, makes no other image, and uploads only `folder/file` and its blurred companion, each under its gate |
| UploadPipelineProperties.AlbumActionsShape | upload/upload.ts:179-199 | the companion write comes first, every write is the album blur, and the uploads are the pending cover and companion paths |
| UploadPipelineProperties.DirectoryEntryOutcome | upload/upload.ts:272-276 | a sub-directory uploads nothing; it is logged iff its path does not end with an output directory name |
| UploadPipelineProperties.BlurredCompanionIsRegular | upload/upload.ts:240-245 | on a re-run, the blurred companion found in the folder goes through the regular branch |
| UploadPipelineProperties.EnsureDirsOutcome | upload/upload.ts:227-235 | afterwards every output directory exists; only the missing ones are created, and nothing else is done |
| UploadPipelineProperties.EnsureDirsIdempotent | upload/upload.ts:227-235 | preparing the directories a second time does nothing |
| UploadPipelineProperties.RerunEntry | upload/upload.ts:179-276 | in fast mode, a stored entry only re-blurs a cover: an output directory and a stored regular photo change nothing |
| UploadPipelineProperties.FastRerunOnlyReblursCovers | upload/upload.ts:179-276 | a fast re-run over a prepared folder whose covers and photos are all stored only writes the covers' blurred companions, in listing order, and uploads nothing. A run writes each cover's `_albumblurred.jpg` companion into the local folder, and the next run lists it as a regular photo and stores its three variants (`BlurredCompanionIsRegular`); so a folder is all stored only from the third run on |
| UploadPipelineProperties.FreshFolderUpload | upload/upload.ts:214-277 | a first run over a photo and a cover creates the three directories and uploads the photo's three variants, the cover and its companion, in that order |
| Lightbox.IsShown | components/Lightbox.tsx:31 | a photo is shown iff 0 <= index < number of photos |
| Lightbox.LeftIndex | components/Lightbox.tsx:50 | from a shown index, the result is shown and equals (i - 1 + n) mod n, so 0 wraps to n - 1 |
| Lightbox.RightIndex | components/Lightbox.tsx:52 | from a shown index, the result is shown and equals (i + 1) mod n, so n - 1 wraps to 0 |
| Lightbox.LeftRightInverse | components/Lightbox.tsx:48-54 | left and right undo each other on every shown index |
| Lightbox.RightStepsValue | components/Lightbox.tsx:52 | k <= n right presses add k, wrapping round once, and stay shown |
| Lightbox.FullCircle | components/Lightbox.tsx:48-54 | n right presses return to the starting photo |
| Lightbox.DirName | components/Lightbox.tsx:36 | the full-resolution directory exactly when the flag is on, the optimized one otherwise |
| Lightbox.ImgFolder | components/Lightbox.tsx:38 | the photo's own folder only in the highlights view and only when it is non-empty; otherwise, including an empty folder, the collection's |
| Lightbox.Render | components/Lightbox.tsx:31-108 | nothing iff the index is outside the photos; otherwise `base/folder/dir/src`, the blur dir for the placeholder, and the photo's name |
| Lightbox.RenderServesUploadedVariants | components/Lightbox.tsx:105-108 | outside highlights, the image and placeholder are the upload script's full or optimized and blur paths |
| Lightbox.InitiallyClosed | components/Collection.tsx:16-17 | the initial state shows nothing |
| Lightbox.LightboxState.constructor | components/Collection.tsx:16-17 | the state starts at index -1, flag off |
| Lightbox.LightboxState.Close | components/Lightbox.tsx:41-43 | the index becomes -1; the flag is kept |
| Lightbox.LightboxState.StepLeft | components/Lightbox.tsx:45-55 | the index becomes LeftIndex of the old one and stays shown; the flag is kept |
| Lightbox.LightboxState.StepRight | components/Lightbox.tsx:45-55 | the index becomes RightIndex of the old one and stays shown; the flag is kept |
| Lightbox.LightboxState.ToggleFullRes | components/Lightbox.tsx:57-61 | the flag is negated and the index kept, so two toggles restore the state |
| PhotoCollage.ParseRowsCols | components/PhotoCollage.tsx:21-27 | a string is kept as given; a number n becomes `span ` followed by the decimal digits of n |
| PhotoCollage.ParseRowsColsNumInjective | components/PhotoCollage.tsx:21-27 | different numbers give different placements |
| PhotoCollage.ParseRowsColsNumStr | components/PhotoCollage.tsx:21-27 | a number and a string place alike iff the string is `span ` and that number |
| PhotoCollage.CellFor | components/PhotoCollage.tsx:61-66 | a cell is placed by the photo's parsed rows and columns, keyed by its file, and shows `folder/<optimized dir>/file` |
| PhotoCollage.Cells | components/PhotoCollage.tsx:60-68 | one cell per photo, in order, with the photo's parsed placement, its key, and the optimized path the upload stores |
| PhotoCollage.CellsAppend | components/PhotoCollage.tsx:60-68 | the cells of a concatenation are the cells of its parts |
| PhotoCollage.Style | components/PhotoCollage.tsx:55-58 | the height is `calc(96vw / 18 * n)` and the row template `repeat(n, 1fr)`, with n the row count in decimal without leading zeros |
| PhotoCollage.StyleDeterminedByTotalRows | components/PhotoCollage.tsx:55-58 | height and row template each determine, and are determined by, the row count |
| PhotoCollage.ClickUrl | components/PhotoCollage.tsx:46 | an address without `/<optimized dir>` is unchanged; otherwise it loses that component |
| PhotoCollage.ClickUrlDropsVariantDir | components/PhotoCollage.tsx:46 | a collage image's click address is `base/folder/file`, which matches none of the upload's paths for that photo |
| PhotoCollage.FullResClickUrl | components/PhotoCollage.tsx:29-46 | the first `/<optimized dir>/` becomes `/watermarked/` |
| PhotoCollage.FullResClickUrlIsStored | components/PhotoCollage.tsx:29-46 | that address is the loader address of the stored full-resolution file |
| PhotoAlbum.AlbumSrc | components/PhotoAlbum.tsx:21-23 | the cover source is the upload's album path `folder/<albumPhoto>_album.jpg` and ends in the album ending |
| PhotoAlbum.AlbumBlurUrl | components/PhotoAlbum.tsx:25-27 | the placeholder is `base/folder/<albumPhoto>_albumblurred.jpg` |
| PhotoAlbum.CoverAgreesWithUpload | components/PhotoAlbum.tsx:21-27 | the cover is an album photo to the script, and the placeholder is the blurred companion the script uploads |
| PhotoAlbum.Title | components/PhotoAlbum.tsx:33 | the heading has no `_` |
| PhotoAlbum.Href | components/PhotoAlbum.tsx:15 | the link is `/collections/` followed by the folder |
| PhotoAlbum.Label | components/PhotoAlbum.tsx:36-37 | just the type when the count is absent or 0; otherwise the type, ` (`, the count in decimal without leading zeros, and `)` |
| PhotoAlbum.LabelRecoversCount | components/PhotoAlbum.tsx:36-37 | labels of one type agree iff both hide the count or both show the same count |
| PhotoAlbumGrid.InitialActive | components/PhotoAlbumGrid.tsx:12-14 | a single non-empty `filter` value is used, anything else gives `All`; never empty |
| PhotoAlbumGrid.Shows | components/PhotoAlbumGrid.tsx:48 | a collection is listed iff the filter is `All` or occurs in its type |
| PhotoAlbumGrid.Visible | components/PhotoAlbumGrid.tsx:47-51 | an order-preserving subsequence holding exactly the collections shown; all of them under `All` |
| PhotoAlbumGrid.VisibleCounts | components/PhotoAlbumGrid.tsx:47-51 | a listed collection appears as many times as in the catalogue, an unlisted one not at all |
| PhotoAlbumGrid.VisibleAppend | components/PhotoAlbumGrid.tsx:47-51 | filtering a concatenation concatenates the filtered parts |
| PhotoAlbumGrid.PeopleIncludesMixedType | components/PhotoAlbumGrid.tsx:48 | a `People & Nature` collection is listed under both `People` and `Nature` |
| PhotoAlbumGrid.AtMostOneActive | components/PhotoAlbumGrid.tsx:16-25 | at most one filter button is marked active |
| PhotoAlbumGrid.QueryAfterClick | components/PhotoAlbumGrid.tsx:30-32 | the whole query is replaced: no key but `filter`, present iff the option is not `All`, and then holding the option; so `All` gives the empty query |
| PhotoAlbumGrid.ClickQueryReadsBack | components/PhotoAlbumGrid.tsx:12-32 | the query a click writes reads back, through the initial-state rule, as the clicked filter |
| PhotoAlbumGrid.AlbumFilter.constructor | components/PhotoAlbumGrid.tsx:10-14 | the active filter starts as InitialActive of the query's `filter` |
| PhotoAlbumGrid.AlbumFilter.Click | components/PhotoAlbumGrid.tsx:26-34 | the active filter becomes the option; on the home page the query is kept, otherwise it becomes QueryAfterClick |

## Left out

- Image codec (sharp): encoding, compositing, resizing and blurring are not modelled.
  - A write is a recorded action naming the source, the target and the parameters
    (watermark files, resize bounds, quality).
  - The encoder is an oracle from the source and the clamped quality to a byte size.
  - Source dimensions are an oracle per source.
- Cloud storage: `exists` is an oracle, fixed for the whole run, so an upload made
  earlier in the same run is not seen by a later check. `upload` is a recorded
  action. Rejected promises (`.catch(console.error)` and the unhandled rejection in
  the `async` callback of `newFiles.forEach`) are left out.
- File system and concurrency:
  - `readdir` is replaced by listings given up front. Its error branches, and the
    `lstatSync` calls, are left out.
  - `existsSync` and `mkdir` are a set of existing local paths. A failed `mkdir`
    is left out.
  - The unawaited promises run as if each finished before the next started.
    Actions are recorded in program order, but the real script interleaves
    encodes and uploads across photos.
- Console output is not modelled, except the "not a directory" and "not a file"
  messages, which are recorded actions.
- Numbers:
  - Rows, columns, people counts, widths and row counts are natural numbers here.
    TypeScript would also accept negative or fractional numbers.
  - `Math.round` is modelled only for non-negative integer byte counts.
  - A number in a template literal is always written in positional decimal. JavaScript
    switches to exponent notation from 10^21 and loses precision above 2^53; neither is modelled.
- DOM and router:
  - The DOM effects of `handleImageClick` are left out; only its address rewrite is modelled.
  - All JSX, styling and event propagation are not modelled.
  - The router is modelled by its query map alone.
  - PhotoAlbumGrid.AlbumFilter.constructor: the query it receives is the one the
    component sees on its first render. The Next.js router fills the query on a
    client-side navigation, but on a hard load of a statically pre-rendered page the
    first render sees an empty query, and the filter then starts at `All` whatever
    the address says. Which pages are pre-rendered is decided under `pages/`, which
    is not part of this model.
- Other files: pages, `components/Navbar.tsx` and the static catalogue
  `data/collections.ts` are not part of this model. The catalogue supplies only the
  example values of `Helpers.CareerFairFolder` and `PhotoAlbumGrid.PeopleIncludesMixedType`.
- Lightbox.LightboxState.ToggleFullRes: the checkbox exists only while a photo is
  shown. The method does not require that, since the toggle does not depend on the index.
- Strings.Substring: its contract names only the cases the code uses (ordered
  in-range indices, and an end of 0 or less). The body handles every case, as
  JavaScript does.
- PhotoCollage.ClickUrlDropsVariantDir and PhotoCollage.FullResClickUrlIsStored:
  both need the optimized directory to occur first right after the folder. Nothing
  fixes the optimized directory's name, so it could also occur in the bucket URL
  or the folder name.
- PhotoAlbum.CoverAgreesWithUpload: it needs the album ending to occur first at
  the end of the cover path. A folder or an `albumPhoto` that already contains
  `_album.jpg` makes the two rewrites differ.

## Findings

| source | as written | input that shows it | evidently intended | confidence | as-written member | corrected member |
|---|---|---|---|---|---|---|
| components/PhotoCollage.tsx:46 | the click handler removes `/<optimized dir>` from the image address, leaving `base/folder/file?width=w` | folder `F`, file `a.jpg`, any width `w` (with `F` not containing the optimized directory name) | the comment at line 30 promises the full-resolution image, which the upload script stores at `F/watermarked/a.jpg` | medium (not executed) | PhotoCollage.ClickUrlDropsVariantDir | PhotoCollage.FullResClickUrlIsStored |
