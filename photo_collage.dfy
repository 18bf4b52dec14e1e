/**
 * The collage grid of components/PhotoCollage.tsx: the placement parser, one cell
 * per photo, the grid style, and the address the click handler derives from an
 * image's address.
 */
module PhotoCollage {
  import opened Strings
  import opened Types
  import opened Globals
  import opened UploadRules
  import opened Helpers

  /** `parseCollectionRowsCols`: a number n becomes "span n", a string is kept as given. */
  function ParseRowsCols(value: RowsCols): (r: string)
    ensures value.Str? ==> r == value.s
    ensures value.Num? ==> DecimalBetween(r, "span ", value.n, "")
  {
    match value
    case Num(n) =>
      DecimalBetweenOf("span ", n, "");
      assert "span " + NatToString(n) + "" == "span " + NatToString(n);
      "span " + NatToString(n)
    case Str(s) => s
  }

  /** A numeric span is recovered from its rendering. */
  lemma ParseRowsColsNumInjective(m: nat, n: nat)
    ensures ParseRowsCols(Num(m)) == ParseRowsCols(Num(n)) <==> m == n
  {
    if ParseRowsCols(Num(m)) == ParseRowsCols(Num(n)) {
      CancelPrefix("span ", NatToString(m), NatToString(n));
      NatToStringInjective(m, n);
    }
  }

  /** A number and a string place a cell alike exactly when the string is "span " and that number. */
  lemma ParseRowsColsNumStr(n: nat, s: string)
    ensures ParseRowsCols(Num(n)) == ParseRowsCols(Str(s)) <==> s == "span " + NatToString(n)
  {
  }

  /** One grid cell: its placement, the image source handed to the loader, and its key. */
  datatype Cell = Cell(gridRow: string, gridColumn: string, src: string, key: string)

  /** A photo's cell shows the optimized variant, at the path convention of the upload script. */
  function CellFor(folder: string, photo: CollectionPhoto): (cell: Cell)
    ensures cell.src == RemotePath(folder, OptimizedDirName, photo.src)
    ensures cell.key == photo.src
    ensures cell.gridRow == ParseRowsCols(photo.rows) && cell.gridColumn == ParseRowsCols(photo.cols)
  {
    Cell(ParseRowsCols(photo.rows), ParseRowsCols(photo.cols),
         folder + "/" + OptimizedDirName + "/" + photo.src, photo.src)
  }

  /**
   * `collection.photos.map(...)`: one cell per photo, in order, placed by the photo's
   * rows and columns, showing the optimized variant the upload script stores.
   */
  function Cells(folder: string, photos: seq<CollectionPhoto>): (cells: seq<Cell>)
    decreases |photos|
    ensures |cells| == |photos|
    ensures forall i :: 0 <= i < |cells| ==>
      && cells[i].gridRow == ParseRowsCols(photos[i].rows)
      && cells[i].gridColumn == ParseRowsCols(photos[i].cols)
      && cells[i].src == RegularRemotePaths(folder, photos[i].src)[1]
      && cells[i].key == photos[i].src
  {
    if photos == [] then []
    else [CellFor(folder, photos[0])] + Cells(folder, photos[1..])
  }

  /** The cells of a concatenation are the cells of its parts. */
  lemma {:induction false} CellsAppend(folder: string, a: seq<CollectionPhoto>, b: seq<CollectionPhoto>)
    decreases |a|
    ensures Cells(folder, a + b) == Cells(folder, a) + Cells(folder, b)
  {
    if a == [] {
      assert a + b == b;
    } else {
      assert (a + b)[1..] == a[1..] + b;
      CellsAppend(folder, a[1..], b);
    }
  }

  /** The collage container's height and row template. */
  datatype CollageStyle = CollageStyle(height: string, gridTemplateRows: string)

  /** The grid's height and row template, each carrying the collection's row count. */
  function Style(totalRows: nat): (st: CollageStyle)
    ensures DecimalBetween(st.height, "calc(96vw / 18 * ", totalRows, ")")
    ensures DecimalBetween(st.gridTemplateRows, "repeat(", totalRows, ", 1fr)")
  {
    DecimalBetweenOf("calc(96vw / 18 * ", totalRows, ")");
    DecimalBetweenOf("repeat(", totalRows, ", 1fr)");
    CollageStyle("calc(96vw / 18 * " + NatToString(totalRows) + ")",
                 "repeat(" + NatToString(totalRows) + ", 1fr)")
  }

  /** Both style values are determined by, and determine, the collection's row count. */
  lemma StyleDeterminedByTotalRows(m: nat, n: nat)
    ensures Style(m) == Style(n) <==> m == n
    ensures Style(m).height == Style(n).height <==> m == n
    ensures Style(m).gridTemplateRows == Style(n).gridTemplateRows <==> m == n
  {
    if Style(m).gridTemplateRows == Style(n).gridTemplateRows {
      DecimalBetweenUnique(Style(m).gridTemplateRows, "repeat(", m, n, ", 1fr)");
    }
    if Style(m).height == Style(n).height {
      DecimalBetweenUnique(Style(m).height, "calc(96vw / 18 * ", m, n, ")");
    }
  }

  /**
   * The click handler's address: the image's address with the first
   * "/<optimized dir>" removed.
   */
  function ClickUrl(targetSrc: string): (r: string)
    ensures !Includes(targetSrc, "/" + OptimizedDirName) ==> r == targetSrc
    ensures Includes(targetSrc, "/" + OptimizedDirName) ==> |r| == |targetSrc| - |OptimizedDirName| - 1
  {
    ReplaceFirst(targetSrc, "/" + OptimizedDirName, "")
  }

  /** Regrouping of a loader address around its directory component. */
  lemma Regroup(base: string, folder: string, dir: string, src: string, query: string)
    ensures base + (folder + "/" + dir + "/" + src) + query == (base + folder) + ("/" + dir) + ("/" + src + query)
    ensures base + (folder + "/" + dir + "/" + src) + query == (base + folder) + ("/" + dir + "/") + (src + query)
    ensures base + (folder + "/" + src) + query == (base + folder) + ("/" + src + query)
  {
  }

  /** Swapping the first "/dir/" of an address whose first such component is the one after the folder. */
  lemma DirSwap(base: string, folder: string, dir: string, newDir: string, src: string, query: string)
    requires IndexOf(base + folder + "/" + dir + "/", "/" + dir + "/") == |base + folder|
    ensures ReplaceFirst(base + (folder + "/" + dir + "/" + src) + query, "/" + dir + "/", "/" + newDir + "/")
      == base + (folder + "/" + newDir + "/" + src) + query
  {
    Regroup(base, folder, dir, src, query);
    Regroup(base, folder, newDir, src, query);
    assert (base + folder) + ("/" + dir + "/") == base + folder + "/" + dir + "/";
    ReplaceFirstAt(base + folder, "/" + dir + "/", src + query, "/" + newDir + "/");
  }

  /**
   * When the optimized directory first occurs where the collage put it, the click
   * address of a collage image is the bucket URL, the folder and the file, with no
   * variant directory: the upload script stores no regular photo there.
   */
  lemma ClickUrlDropsVariantDir(folder: string, src: string, width: nat, quality: Option<nat>)
    requires IndexOf(BaseURL + "/" + folder + "/" + OptimizedDirName, "/" + OptimizedDirName) == |BaseURL + "/" + folder|
    ensures var url := ImageLoader(CellFor(folder, CollectionPhoto(src, Num(1), Num(1), None)).src, width, quality);
      && ClickUrl(url) == ImageLoader(AlbumRemotePath(folder, src), width, quality)
      && forall i :: 0 <= i < |DirNames| ==>
           ClickUrl(url) != ImageLoader(RegularRemotePaths(folder, src)[i], width, quality)
  {
    var base := BaseURL + "/";
    var query := "?width=" + NatToString(width);
    var prefix := base + folder;
    var pat := "/" + OptimizedDirName;
    var rest := "/" + src + query;
    var url := ImageLoader(CellFor(folder, CollectionPhoto(src, Num(1), Num(1), None)).src, width, quality);
    Regroup(base, folder, OptimizedDirName, src, query);
    assert prefix + pat == BaseURL + "/" + folder + "/" + OptimizedDirName;
    assert url == prefix + pat + rest;
    ReplaceFirstAt(prefix, pat, rest, "");
    assert prefix + "" + rest == prefix + rest;
    assert ClickUrl(url) == prefix + rest;
    forall i | 0 <= i < |DirNames|
      ensures ClickUrl(url) != ImageLoader(RegularRemotePaths(folder, src)[i], width, quality)
    {
      ImageLoaderLengths(AlbumRemotePath(folder, src), RegularRemotePaths(folder, src)[i], width, quality);
    }
  }

  /** Loader addresses of sources of different lengths differ. */
  lemma ImageLoaderLengths(a: string, b: string, width: nat, quality: Option<nat>)
    requires |a| != |b|
    ensures ImageLoader(a, width, quality) != ImageLoader(b, width, quality)
  {
  }

  /**
   * The full-resolution address the click handler is documented to open: the first
   * "/<optimized dir>/" replaced by "/watermarked/".
   */
  function FullResClickUrl(targetSrc: string): (r: string)
    ensures !Includes(targetSrc, "/" + OptimizedDirName + "/") ==> r == targetSrc
    ensures Includes(targetSrc, "/" + OptimizedDirName + "/") ==> |r| == |targetSrc| - |OptimizedDirName| + |FullDirName|
  {
    ReplaceFirst(targetSrc, "/" + OptimizedDirName + "/", "/" + FullDirName + "/")
  }

  /** That address is the loader address of the full-resolution file the upload script stores. */
  lemma FullResClickUrlIsStored(folder: string, src: string, width: nat, quality: Option<nat>)
    requires IndexOf(BaseURL + "/" + folder + "/" + OptimizedDirName + "/", "/" + OptimizedDirName + "/") == |BaseURL + "/" + folder|
    ensures var url := ImageLoader(CellFor(folder, CollectionPhoto(src, Num(1), Num(1), None)).src, width, quality);
      FullResClickUrl(url) == ImageLoader(RegularRemotePaths(folder, src)[0], width, quality)
  {
    var query := "?width=" + NatToString(width);
    DirSwap(BaseURL + "/", folder, OptimizedDirName, FullDirName, src, query);
    ConcatAssoc(BaseURL + "/" + (folder + "/" + OptimizedDirName + "/" + src), "?width=", NatToString(width));
    ConcatAssoc(BaseURL + "/" + (folder + "/" + FullDirName + "/" + src), "?width=", NatToString(width));
    assert RegularRemotePaths(folder, src)[0] == folder + "/" + FullDirName + "/" + src;
  }
}
