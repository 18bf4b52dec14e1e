/**
 * The album card of components/PhotoAlbum.tsx: the cover image and its blurred
 * placeholder, the heading, the type label and the link.
 */
module PhotoAlbum {
  import opened Strings
  import opened Types
  import opened Globals
  import opened UploadRules
  import opened Helpers

  /** The cover file name of a collection, as the upload script finds it in the folder. */
  function CoverFile(c: Collection): string {
    c.albumPhoto + AlbumPhotoEnding
  }

  /** The cover image source handed to the loader: the album path of the upload script. */
  function AlbumSrc(c: Collection): (src: string)
    ensures src == AlbumRemotePath(c.folder, CoverFile(c))
    ensures EndsWith(src, AlbumPhotoEnding) && Includes(src, AlbumPhotoEnding)
  {
    var src := c.folder + "/" + (c.albumPhoto + AlbumPhotoEnding);
    assert src[|src| - |AlbumPhotoEnding|..] == AlbumPhotoEnding;
    assert OccursAt(src, AlbumPhotoEnding, |src| - |AlbumPhotoEnding|);
    src
  }

  /** The cover's placeholder address. */
  function AlbumBlurUrl(c: Collection): (url: string)
    ensures url == BaseURL + "/" + AlbumRemotePath(c.folder, c.albumPhoto + AlbumPhotoBlurredEnding)
  {
    BaseURL + "/" + c.folder + "/" + (c.albumPhoto + AlbumPhotoBlurredEnding)
  }

  /**
   * The upload script treats the cover file as an album photo, and when the album
   * ending first occurs at the end of the cover path, the placeholder the card asks
   * for is the blurred companion the script uploads.
   */
  lemma CoverAgreesWithUpload(c: Collection)
    requires IndexOf(c.folder + "/" + c.albumPhoto + AlbumPhotoEnding, AlbumPhotoEnding) == |c.folder + "/" + c.albumPhoto|
    ensures IsAlbumPhoto(CoverFile(c))
    ensures AlbumBlurUrl(c) == BaseURL + "/" + BlurredAlbumPath(AlbumRemotePath(c.folder, CoverFile(c)))
    ensures BlurredAlbumPath(AlbumSrc(c)) == AlbumBlurUrl(c)[|BaseURL| + 1..]
  {
    var prefix := c.folder + "/" + c.albumPhoto;
    var file := CoverFile(c);
    assert file[|c.albumPhoto|..] == AlbumPhotoEnding;
    assert OccursAt(file, AlbumPhotoEnding, |c.albumPhoto|);
    ConcatAssoc(c.folder + "/", c.albumPhoto, AlbumPhotoEnding);
    ConcatAssoc(c.folder + "/", c.albumPhoto, AlbumPhotoBlurredEnding);
    BlurredAlbumPathOfEnding(prefix);
    ConcatAssoc(BaseURL + "/", c.folder + "/", c.albumPhoto + AlbumPhotoBlurredEnding);
    ConcatAssoc(BaseURL, "/", c.folder + "/" + (c.albumPhoto + AlbumPhotoBlurredEnding));
  }

  /** The card heading: the title part of the folder name. */
  function Title(c: Collection): (title: string)
    ensures '_' !in title
  {
    FolderToTitle(c.folder)
  }

  /** The card link: the collection's page. */
  function Href(c: Collection): (href: string)
    ensures |href| == 13 + |c.folder| && href[..13] == "/collections/" && href[13..] == c.folder
  {
    "/collections/" + c.folder
  }

  /**
   * The type label: the collection type, followed by the number of people in
   * parentheses when that number is present and not 0.
   */
  function Label(collectionType: string, numPeople: Option<nat>): (text: string)
    ensures |text| >= |collectionType| && text[..|collectionType|] == collectionType
    ensures numPeople.None? || numPeople.value == 0 ==> text == collectionType
    ensures numPeople.Some? && numPeople.value != 0 ==> DecimalBetween(text, collectionType + " (", numPeople.value, ")")
  {
    if numPeople.Some? && numPeople.value != 0 then
      DecimalBetweenOf(collectionType + " (", numPeople.value, ")");
      collectionType + " (" + NatToString(numPeople.value) + ")"
    else
      collectionType
  }

  /**
   * Two labels of the same type agree exactly when both show no count or both show
   * the same count.
   */
  lemma LabelRecoversCount(collectionType: string, m: Option<nat>, n: Option<nat>)
    ensures Label(collectionType, m) == Label(collectionType, n) <==>
      var mShown := m.Some? && m.value != 0;
      var nShown := n.Some? && n.value != 0;
      (!mShown && !nShown) || (mShown && nShown && m.value == n.value)
  {
    var mShown := m.Some? && m.value != 0;
    var nShown := n.Some? && n.value != 0;
    if Label(collectionType, m) == Label(collectionType, n) && mShown && nShown {
      var sm, sn := NatToString(m.value), NatToString(n.value);
      ConcatAssoc(collectionType, " (", sm + ")");
      ConcatAssoc(collectionType, " (", sn + ")");
      ConcatAssoc(" (", sm, ")");
      ConcatAssoc(" (", sn, ")");
      CancelPrefix(collectionType + " (", sm + ")", sn + ")");
      CancelSuffix(sm, sn, ")");
      NatToStringInjective(m.value, n.value);
    }
  }
}
