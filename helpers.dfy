/** The folder-name parsers and the image loader of helpers/helpers.ts. */
module Helpers {
  import opened Strings
  import opened Types
  import opened Globals

  /**
   * The title of a collection folder such as "9-15-2021_RS_Career_Fair_Prep": the
   * part after the first underscore, with every remaining underscore turned into a
   * space. A folder without an underscore is its own title.
   */
  function FolderToTitle(folder: string): (title: string)
    ensures '_' !in title
    ensures |title| == |folder| - (IndexOf(folder, "_") + 1)
  {
    ReplaceAllChar(SubstringFrom(folder, IndexOf(folder, "_") + 1), '_', ' ')
  }

  /** The date part of a collection folder: everything before the first underscore. */
  function FolderToMainDateString(folder: string): (date: string)
    ensures '_' !in date
    ensures date <= folder
  {
    IndexOfChar(folder, '_');
    Substring(folder, 0, IndexOf(folder, "_"))
  }

  /** A folder without an underscore is its own title and has an empty date. */
  lemma NoUnderscore(folder: string)
    requires '_' !in folder
    ensures FolderToTitle(folder) == folder
    ensures FolderToMainDateString(folder) == ""
  {
    IndexOfChar(folder, '_');
  }

  /**
   * With its first underscore at index i, a folder is the date, that underscore and
   * the rest; the title is the rest with underscores turned into spaces.
   */
  lemma SplitAtFirstUnderscore(folder: string, i: nat)
    requires i < |folder| && folder[i] == '_' && '_' !in folder[..i]
    ensures FolderToMainDateString(folder) == folder[..i]
    ensures FolderToMainDateString(folder) + "_" + folder[i + 1..] == folder
    ensures |FolderToTitle(folder)| == |folder| - i - 1
    ensures forall k :: 0 <= k < |folder| - i - 1 ==>
      FolderToTitle(folder)[k] == if folder[i + 1 + k] == '_' then ' ' else folder[i + 1 + k]
  {
    IndexOfChar(folder, '_');
    assert folder[..i] + "_" + folder[i + 1..] == folder;
  }

  /** The folder of the first catalogued collection. */
  lemma CareerFairFolder(folder: string)
    requires folder == "9-15-2021_RS_Career_Fair_Prep"
    ensures FolderToMainDateString(folder) == "9-15-2021"
    ensures FolderToTitle(folder) == "RS Career Fair Prep"
  {
    assert folder[..9] == "9-15-2021" && folder[9] == '_';
    SplitAtFirstUnderscore(folder, 9);
    CareerFairTitle(folder, FolderToTitle(folder));
  }

  /** The title's characters, one by one, from the per-index description of the title. */
  lemma CareerFairTitle(folder: string, title: string)
    requires folder == "9-15-2021_RS_Career_Fair_Prep"
    requires |title| == 19
    requires forall k :: 0 <= k < 19 ==> title[k] == if folder[10 + k] == '_' then ' ' else folder[10 + k]
    ensures title == "RS Career Fair Prep"
  {
  }

  /**
   * The Next.js image loader: the bucket URL, the source and the requested width.
   * The quality argument is accepted and ignored, since every image is served from
   * one pre-optimized file.
   */
  function ImageLoader(src: string, width: nat, quality: Option<nat>): string
  {
    BaseURL + "/" + src + "?width=" + NatToString(width)
  }

  /** A loader URL is the source under the bucket URL, then `?width=` and the width in decimal. */
  lemma ImageLoaderFormat(src: string, width: nat, quality: Option<nat>)
    ensures DecimalBetween(ImageLoader(src, width, quality), BaseURL + "/" + src + "?width=", width, "")
  {
    var pre := BaseURL + "/" + src + "?width=";
    DecimalBetweenOf(pre, width, "");
    assert pre + NatToString(width) + "" == pre + NatToString(width);
  }

  /**
   * Two loader URLs are equal exactly when they ask for the same source at the same
   * width, whatever qualities were passed.
   */
  lemma ImageLoaderRequest(src1: string, width1: nat, q1: Option<nat>, src2: string, width2: nat, q2: Option<nat>)
    ensures ImageLoader(src1, width1, q1) == ImageLoader(src2, width2, q2) <==> src1 == src2 && width1 == width2
  {
    if ImageLoader(src1, width1, q1) == ImageLoader(src2, width2, q2) {
      var p := BaseURL + "/";
      var t1, t2 := "width=" + NatToString(width1), "width=" + NatToString(width2);
      assert p + (src1 + "?" + t1) == ImageLoader(src1, width1, q1);
      assert p + (src2 + "?" + t2) == ImageLoader(src2, width2, q2);
      CancelPrefix(p, src1 + "?" + t1, src2 + "?" + t2);
      assert '?' !in t1 && '?' !in t2 by {
        assert forall k :: 0 <= k < |t1| ==> t1[k] == '?' ==> k >= 6 && t1[k] == NatToString(width1)[k - 6];
        assert forall k :: 0 <= k < |t2| ==> t2[k] == '?' ==> k >= 6 && t2[k] == NatToString(width2)[k - 6];
      }
      SplitAtLastChar(src1, t1, src2, t2, '?');
      CancelPrefix("width=", NatToString(width1), NatToString(width2));
      NatToStringInjective(width1, width2);
    }
  }
}
