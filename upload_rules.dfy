/**
 * The decisions of upload/upload.ts that do not depend on the file system: the
 * existence gates, the remote path convention, the album classification and its
 * blurred companion, the blur resize and the choice of watermark.
 */
module UploadRules {
  import opened Strings
  import opened Types
  import opened Globals

  const UploadPhotoDir: string := "upload/photos"

  /** The output directories, in the script's order: full resolution, optimized, blur. */
  const DirNames: seq<string> := [FullDirName, OptimizedDirName, BlurDirName]

  const WatermarkLogoPathLG: string := "upload/TEMP_LOGO_NEW_LG.png"
  const WatermarkLogoPathSM: string := "upload/TEMP_LOGO_NEW_SM.png"
  const WatermarkLogoPathLGTransparent: string := "upload/TEMP_LOGO_NEW_LG_TRANSPARENT.png"
  const WatermarkLogoPathSMTransparent: string := "upload/TEMP_LOGO_NEW_SM_TRANSPARENT.png"

  // ---------------------------------------------------------------------------
  // Existence gates

  /** Fast mode is on when the script is started with the `doFastUpload` argument. */
  function FastUploadRequested(argv: seq<string>): (fast: bool)
    ensures fast <==> exists i :: 0 <= i < |argv| && argv[i] == "doFastUpload"
  {
    "doFastUpload" in argv
  }

  /**
   * `!results.flat().includes(false)` in fast mode: an upload (or a whole photo)
   * is skipped only in fast mode, and only when the store reported every path as
   * existing.
   */
  predicate SkipsUpload(fast: bool, results: seq<bool>)
  {
    fast && false !in results
  }

  lemma SkipsUploadIff(fast: bool, results: seq<bool>)
    ensures SkipsUpload(fast, results) <==> fast && forall i :: 0 <= i < |results| ==> results[i]
    ensures !fast ==> !SkipsUpload(fast, results)
  {
    if fast && false !in results {
      assert forall i :: 0 <= i < |results| ==> results[i] by {
        forall i | 0 <= i < |results| ensures results[i] {
          assert results[i] in results;
        }
      }
    }
  }

  /** `Array.prototype.flat` on the list of existence replies. */
  function Flat(replies: seq<seq<bool>>): (r: seq<bool>)
    ensures forall b :: b in r <==> exists i :: 0 <= i < |replies| && b in replies[i]
  {
    if replies == [] then [] else replies[0] + Flat(replies[1..])
  }

  /**
   * The per-photo `doUpload` flag: the photo is processed unless fast mode is on
   * and all three remote paths exist.
   */
  function DoUpload(fast: bool, fullExists: bool, optimizedExists: bool, blurExists: bool): (b: bool)
    ensures b <==> !fast || !fullExists || !optimizedExists || !blurExists
  {
    var allExist := [[fullExists], [optimizedExists], [blurExists]];
    assert [fullExists] == allExist[0] && [optimizedExists] == allExist[1] && [blurExists] == allExist[2];
    !SkipsUpload(fast, Flat(allExist))
  }

  // ---------------------------------------------------------------------------
  // Paths

  /** The remote path convention `{collection folder}/{variant dir}/{file}`. */
  function RemotePath(folder: string, dir: string, file: string): string {
    folder + "/" + dir + "/" + file
  }

  /** The remote paths of a regular photo, one per output directory, in order. */
  function RegularRemotePaths(folder: string, file: string): (ps: seq<string>)
    ensures |ps| == |DirNames|
    ensures forall i :: 0 <= i < |ps| ==> ps[i] == RemotePath(folder, DirNames[i], file)
  {
    seq(|DirNames|, i requires 0 <= i < |DirNames| => RemotePath(folder, DirNames[i], file))
  }

  /** The three output directories are distinct. */
  lemma DirNamesDistinct()
    ensures forall i, j :: 0 <= i < j < |DirNames| ==> DirNames[i] != DirNames[j]
  {
  }

  /** A photo's three remote paths are pairwise distinct. */
  lemma RegularRemotePathsDistinct(folder: string, file: string)
    ensures var ps := RegularRemotePaths(folder, file);
      forall i, j :: 0 <= i < j < |ps| ==> ps[i] != ps[j]
  {
    var ps := RegularRemotePaths(folder, file);
    forall i, j | 0 <= i < j < |ps| ensures ps[i] != ps[j] {
      if ps[i] == ps[j] {
        var p := folder + "/";
        assert ps[i] == p + (DirNames[i] + "/" + file);
        assert ps[j] == p + (DirNames[j] + "/" + file);
        CancelPrefix(p, DirNames[i] + "/" + file, DirNames[j] + "/" + file);
        assert DirNames[i] + "/" + file == DirNames[i] + ("/" + file);
        assert DirNames[j] + "/" + file == DirNames[j] + ("/" + file);
        CancelSuffix(DirNames[i], DirNames[j], "/" + file);
        DirNamesDistinct();
      }
    }
  }

  /** The remote path of an album photo: directly under the collection folder. */
  function AlbumRemotePath(folder: string, file: string): string {
    folder + "/" + file
  }

  /** A file is an album photo when its name contains the album ending anywhere. */
  predicate IsAlbumPhoto(file: string): (b: bool)
    ensures b <==> exists j: nat :: OccursAt(file, AlbumPhotoEnding, j)
  {
    Includes(file, AlbumPhotoEnding)
  }

  /** The path of the blurred companion: the FIRST album ending replaced by the blurred one. */
  function BlurredAlbumPath(path: string): (r: string)
    ensures !Includes(path, AlbumPhotoEnding) ==> r == path
    ensures Includes(path, AlbumPhotoEnding) ==> |r| == |path| + 7
  {
    ReplaceFirst(path, AlbumPhotoEnding, AlbumPhotoBlurredEnding)
  }

  /**
   * For a path whose first album ending is its last ten characters, the blurred
   * path swaps that ending for the blurred ending.
   */
  lemma BlurredAlbumPathOfEnding(prefix: string)
    requires IndexOf(prefix + AlbumPhotoEnding, AlbumPhotoEnding) == |prefix|
    ensures BlurredAlbumPath(prefix + AlbumPhotoEnding) == prefix + AlbumPhotoBlurredEnding
  {
    ReplaceFirstAt(prefix, AlbumPhotoEnding, "", AlbumPhotoBlurredEnding);
    assert prefix + AlbumPhotoEnding + "" == prefix + AlbumPhotoEnding;
    assert prefix + AlbumPhotoBlurredEnding + "" == prefix + AlbumPhotoBlurredEnding;
  }

  /**
   * The blurred ending does not contain the album ending, so a blurred companion
   * named `x_albumblurred.jpg` (for an `x` without the album ending) is NOT an album
   * photo: when the script finds it in a collection folder on a later run, it
   * treats it as a regular photo.
   */
  lemma BlurredNameIsNotAlbum(x: string)
    requires !Includes(x, AlbumPhotoEnding)
    ensures !IsAlbumPhoto(x + AlbumPhotoBlurredEnding)
  {
    var s := x + AlbumPhotoBlurredEnding;
    var pat := AlbumPhotoEnding;
    forall j: nat ensures !OccursAt(s, pat, j) {
      if j + |pat| <= |x| {
        assert j + |pat| <= |s| && x[j..j + |pat|] == s[j..j + |pat|];
        assert !OccursAt(x, pat, j);
      } else if j < |x| {
        NoOccurrenceAcrossBlurredEnding(x, j);
      } else {
        NoOccurrenceInBlurredEnding(x, j);
      }
    }
  }

  /** An album ending cannot straddle the start of the blurred ending: it has no later '_'. */
  lemma NoOccurrenceAcrossBlurredEnding(x: string, j: nat)
    requires j < |x| < j + |AlbumPhotoEnding|
    ensures !OccursAt(x + AlbumPhotoBlurredEnding, AlbumPhotoEnding, j)
  {
    var s, pat := x + AlbumPhotoBlurredEnding, AlbumPhotoEnding;
    if j + |pat| <= |s| {
      assert s[j..j + |pat|][|x| - j] == s[|x|] == '_';
      assert pat[|x| - j] != '_';
    }
  }

  /** The album ending does not occur inside the blurred ending. */
  lemma NoOccurrenceInBlurredEnding(x: string, j: nat)
    requires |x| <= j
    ensures !OccursAt(x + AlbumPhotoBlurredEnding, AlbumPhotoEnding, j)
  {
    var s, pat := x + AlbumPhotoBlurredEnding, AlbumPhotoEnding;
    if j + |pat| <= |s| {
      assert s[j..j + |pat|] == AlbumPhotoBlurredEnding[j - |x|..j - |x| + |pat|];
      assert s[j] == AlbumPhotoBlurredEnding[j - |x|];
      if j == |x| {
        assert s[j..j + |pat|][6] == s[j + 6] == AlbumPhotoBlurredEnding[6] == 'b';
        assert pat[6] == '.';
      } else {
        assert s[j] != '_';
      }
    }
  }

  // ---------------------------------------------------------------------------
  // Image operations

  /** The optional height and width bounds of a `resize` call. */
  datatype Resize = Resize(height: Option<nat>, width: Option<nat>)

  /**
   * The blur placeholder's resize: the height is bounded to 500 only for a portrait
   * image and the width only for a landscape one; a square image is not bounded.
   */
  function BlurResize(width: nat, height: nat): (r: Resize)
    ensures r.height.Some? <==> height > width
    ensures r.width.Some? <==> width > height
    ensures r.height.Some? ==> r.height.value == 500
    ensures r.width.Some? ==> r.width.value == 500
    ensures !(r.height.Some? && r.width.Some?)
    ensures width == height ==> r == Resize(None, None)
  {
    Resize(if height > width then Some(500) else None, if width > height then Some(500) else None)
  }

  /** The two overlays: a corner logo and a translucent centred logo. */
  datatype Watermark = Watermark(corner: string, centre: string)

  /** Photos whose path contains "DSCF" get the large logos, all others the small ones. */
  function WatermarkFor(sourcePath: string): (w: Watermark)
    ensures Includes(sourcePath, "DSCF") <==> w.corner == WatermarkLogoPathLG
    ensures Includes(sourcePath, "DSCF") <==> w.centre == WatermarkLogoPathLGTransparent
    ensures !Includes(sourcePath, "DSCF") ==> w == Watermark(WatermarkLogoPathSM, WatermarkLogoPathSMTransparent)
  {
    if Includes(sourcePath, "DSCF") then Watermark(WatermarkLogoPathLG, WatermarkLogoPathLGTransparent)
    else Watermark(WatermarkLogoPathSM, WatermarkLogoPathSMTransparent)
  }
}
