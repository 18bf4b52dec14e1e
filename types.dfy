/** The collection records of types/Collection.ts. */
module Types {

  /** An optional field (`x?: T` in TypeScript). */
  datatype Option<T> = None | Some(value: T)

  /** A grid placement: a number of rows/columns to span, or a CSS placement string. */
  datatype RowsCols = Num(n: nat) | Str(s: string)

  datatype CollectionPhoto = CollectionPhoto(
    src: string,
    rows: RowsCols,
    cols: RowsCols,
    folder: Option<string>)

  /** `collectionType` is the `type` field; its values are plain strings such as "People & Nature". */
  datatype Collection = Collection(
    folder: string,
    collectionType: string,
    numPeople: Option<nat>,
    totalRows: nat,
    albumPhoto: string,
    photos: seq<CollectionPhoto>)
}
