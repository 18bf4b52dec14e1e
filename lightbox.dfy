/**
 * The lightbox of components/Lightbox.tsx: a viewer over one collection's photos
 * whose state is the shared pair (current index, full-resolution flag) that
 * components/Collection.tsx creates as (-1, false).
 */
module Lightbox {
  import opened Types
  import opened Globals
  import opened UploadRules

  /** The lightbox renders a photo only for an index inside the collection. */
  predicate IsShown(index: int, n: nat): (b: bool)
    ensures b <==> 0 <= index < n
  {
    !(index < 0 || index >= n)
  }

  /** The left button: the previous photo, from the first back round to the last. */
  function LeftIndex(index: int, n: nat): (r: int)
    ensures IsShown(index, n) ==> IsShown(r, n) && r == (index - 1 + n) % n
  {
    if index <= 0 then n - 1 else index - 1
  }

  /** The right button: the next photo, from the last on round to the first. */
  function RightIndex(index: int, n: nat): (r: int)
    ensures IsShown(index, n) ==> IsShown(r, n) && r == (index + 1) % n
  {
    if index + 1 >= n then 0 else index + 1
  }

  /** Left and right undo each other on every shown index. */
  lemma LeftRightInverse(index: int, n: nat)
    requires IsShown(index, n)
    ensures LeftIndex(RightIndex(index, n), n) == index
    ensures RightIndex(LeftIndex(index, n), n) == index
  {
  }

  /** The index after k presses of the right button. */
  function RightSteps(index: int, n: nat, k: nat): int
    decreases k
  {
    if k == 0 then index else RightIndex(RightSteps(index, n, k - 1), n)
  }

  /** Up to a full round, k presses of the right button add k, wrapping round once. */
  lemma {:induction false} RightStepsValue(index: int, n: nat, k: nat)
    requires IsShown(index, n) && k <= n
    decreases k
    ensures IsShown(RightSteps(index, n, k), n)
    ensures RightSteps(index, n, k) == if index + k < n then index + k else index + k - n
  {
    if k > 0 {
      RightStepsValue(index, n, k - 1);
    }
  }

  /** Pressing right once per photo comes back to the photo started from. */
  lemma FullCircle(index: int, n: nat)
    requires IsShown(index, n)
    ensures RightSteps(index, n, n) == index
  {
    RightStepsValue(index, n, n);
  }

  /** The directory served: the full-resolution one exactly when the flag is on. */
  function DirName(fullRes: bool): (d: string)
    ensures d == FullDirName <==> fullRes
    ensures !fullRes ==> d == OptimizedDirName
  {
    if fullRes then FullDirName else OptimizedDirName
  }

  /**
   * The folder a photo is served from: in the highlights view, a photo that names a
   * (non-empty) folder of its own is served from there; otherwise from the collection.
   */
  function ImgFolder(c: Collection, photo: CollectionPhoto, isHighlights: bool): (f: string)
    ensures !isHighlights || photo.folder.None? || photo.folder == Some("") ==> f == c.folder
    ensures isHighlights && photo.folder.Some? && photo.folder.value != "" ==> f == photo.folder.value
    ensures f == c.folder || photo.folder == Some(f)
  {
    if isHighlights && photo.folder.Some? && photo.folder.value != "" then photo.folder.value else c.folder
  }

  /** What the lightbox shows: the image, its blurred placeholder, and the photo's name. */
  datatype View = View(src: string, blurDataURL: string, name: string)

  /**
   * Nothing for an index outside the collection; otherwise the photo's image in the
   * chosen directory, with the blur directory's copy as placeholder, both under the
   * bucket URL at the path the upload script writes to.
   */
  function Render(c: Collection, isHighlights: bool, index: int, fullRes: bool): (v: Option<View>)
    ensures v.None? <==> !IsShown(index, |c.photos|)
    ensures v.Some? ==>
      var photo := c.photos[index];
      var folder := ImgFolder(c, photo, isHighlights);
      && v.value.src == BaseURL + "/" + RemotePath(folder, DirName(fullRes), photo.src)
      && v.value.blurDataURL == BaseURL + "/" + RemotePath(folder, BlurDirName, photo.src)
      && v.value.name == photo.src
  {
    if index < 0 || index >= |c.photos| then None
    else
      var dirName := DirName(fullRes);
      var photo := c.photos[index];
      var imgFolder := ImgFolder(c, photo, isHighlights);
      Some(View(BaseURL + "/" + imgFolder + "/" + dirName + "/" + photo.src,
                BaseURL + "/" + imgFolder + "/" + BlurDirName + "/" + photo.src,
                photo.src))
  }

  /**
   * Outside the highlights view, the lightbox serves exactly the files the upload
   * script stores for the photo: the full-resolution or the optimized variant, and
   * the blur variant as placeholder.
   */
  lemma RenderServesUploadedVariants(c: Collection, index: int, fullRes: bool)
    requires IsShown(index, |c.photos|)
    ensures var v := Render(c, false, index, fullRes).value;
      var ps := RegularRemotePaths(c.folder, c.photos[index].src);
      && v.src == BaseURL + "/" + (if fullRes then ps[0] else ps[1])
      && v.blurDataURL == BaseURL + "/" + ps[2]
  {
  }

  /** The state the collection page starts the lightbox in shows nothing. */
  lemma InitiallyClosed(c: Collection, isHighlights: bool)
    ensures Render(c, isHighlights, -1, false).None?
  {
  }

  /** The shared lightbox state and its setters. */
  class LightboxState {
    var index: int
    var fullRes: bool

    /** `useState(-1)` and `useState(false)`. */
    constructor()
      ensures index == -1 && !fullRes
    {
      index := -1;
      fullRes := false;
    }

    /** A click on the backdrop or the close button. */
    method Close()
      modifies this
      ensures index == -1 && fullRes == old(fullRes)
    {
      index := -1;
    }

    /** The left button, present only while a photo is shown. */
    method StepLeft(n: nat)
      requires IsShown(index, n)
      modifies this
      ensures index == LeftIndex(old(index), n) && IsShown(index, n)
      ensures fullRes == old(fullRes)
    {
      index := if index <= 0 then n - 1 else index - 1;
    }

    /** The right button, present only while a photo is shown. */
    method StepRight(n: nat)
      requires IsShown(index, n)
      modifies this
      ensures index == RightIndex(old(index), n) && IsShown(index, n)
      ensures fullRes == old(fullRes)
    {
      index := if index + 1 >= n then 0 else index + 1;
    }

    /** The full-resolution checkbox. */
    method ToggleFullRes()
      modifies this
      ensures fullRes == !old(fullRes) && index == old(index)
    {
      fullRes := !fullRes;
    }
  }
}
