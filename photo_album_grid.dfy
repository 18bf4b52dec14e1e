/**
 * The album grid of components/PhotoAlbumGrid.tsx: the filter buttons, the filter
 * taken from the page's query string, and which collections are listed.
 */
module PhotoAlbumGrid {
  import opened Strings
  import opened Types

  /** The value of one query-string key: missing, given once, or given several times. */
  datatype QueryValue = Absent | Single(s: string) | Many(values: seq<string>)

  const AllOption: string := "All"
  const FilterOptions: seq<string> := [AllOption, "People", "Nature"]

  /** The filter the grid starts with: the `filter` query value if it is one non-empty string, else "All". */
  function InitialActive(filter: QueryValue): (active: string)
    ensures active != ""
    ensures active == AllOption || filter == Single(active)
    ensures filter.Single? && filter.s != "" ==> active == filter.s
  {
    if filter.Single? && filter.s != "" then filter.s else AllOption
  }

  /** A collection is listed under the active filter when that is "All" or occurs in its type. */
  predicate Shows(active: string, c: Collection): (b: bool)
    ensures b <==> active == AllOption || exists j: nat :: OccursAt(c.collectionType, active, j)
  {
    active == AllOption || Includes(c.collectionType, active)
  }

  /** `a` is `b` with some elements left out, the rest in their order. */
  predicate IsSubsequence<T(==)>(a: seq<T>, b: seq<T>)
    decreases |b|
  {
    if a == [] then true
    else if b == [] then false
    else (a[0] == b[0] && IsSubsequence(a[1..], b[1..])) || IsSubsequence(a, b[1..])
  }

  /** The listed collections, in catalog order. */
  function Visible(active: string, collections: seq<Collection>): (shown: seq<Collection>)
    decreases |collections|
    ensures IsSubsequence(shown, collections)
    ensures forall c :: c in shown <==> c in collections && Shows(active, c)
    ensures active == AllOption ==> shown == collections
  {
    if collections == [] then []
    else
      var rest := Visible(active, collections[1..]);
      if Shows(active, collections[0]) then [collections[0]] + rest
      else rest
  }

  /** Each listed collection is kept as many times as the catalog holds it; the others not at all. */
  lemma {:induction false} VisibleCounts(active: string, collections: seq<Collection>)
    decreases |collections|
    ensures forall c ::
      multiset(Visible(active, collections))[c] == if Shows(active, c) then multiset(collections)[c] else 0
  {
    if collections != [] {
      VisibleCounts(active, collections[1..]);
      assert collections == [collections[0]] + collections[1..];
    }
  }

  /** The list under a filter is the concatenation of the lists of the catalog's parts. */
  lemma {:induction false} VisibleAppend(active: string, a: seq<Collection>, b: seq<Collection>)
    decreases |a|
    ensures Visible(active, a + b) == Visible(active, a) + Visible(active, b)
  {
    if a == [] {
      assert a + b == b;
    } else {
      assert (a + b)[0] == a[0];
      assert (a + b)[1..] == a[1..] + b;
      VisibleAppend(active, a[1..], b);
    }
  }

  /** A type containing "People", such as "People & Nature", is listed under "People". */
  lemma PeopleIncludesMixedType(c: Collection)
    requires c.collectionType == "People & Nature"
    ensures Shows("People", c)
    ensures Shows("Nature", c)
  {
    assert c.collectionType[..6] == "People";
    assert OccursAt(c.collectionType, "People", 0);
    assert c.collectionType[9..15] == "Nature";
    assert OccursAt(c.collectionType, "Nature", 9);
  }

  /** At most one filter button is marked active. */
  lemma AtMostOneActive(active: string)
    ensures forall i, j ::
      0 <= i < |FilterOptions| && 0 <= j < |FilterOptions| && FilterOptions[i] == active && FilterOptions[j] == active
      ==> i == j
  {
  }

  /** The query the collections page is given after a click on a filter button. */
  function QueryAfterClick(option: string): (q: map<string, string>)
    ensures "filter" in q <==> option != AllOption
    ensures "filter" in q ==> q["filter"] == option
    ensures q.Keys <= {"filter"}
  {
    if option != AllOption then map["filter" := option] else map[]
  }

  /** The `filter` value a query string holds. */
  function FilterParam(query: map<string, string>): QueryValue {
    if "filter" in query then Single(query["filter"]) else Absent
  }

  /** The query a click writes reads back, through the initial-state rule, as the clicked filter. */
  lemma ClickQueryReadsBack(option: string)
    requires option in FilterOptions
    ensures InitialActive(FilterParam(QueryAfterClick(option))) == option
  {
  }

  /** The grid's filter state. */
  class AlbumFilter {
    const isHome: bool
    var active: string
    var query: map<string, string>

    constructor(isHome: bool, query: map<string, string>)
      ensures this.isHome == isHome && this.query == query
      ensures active == InitialActive(FilterParam(query))
    {
      this.isHome := isHome;
      this.query := query;
      this.active := if "filter" in query && query["filter"] != "" then query["filter"] else AllOption;
    }

    /** A click on a filter button: on the home page the query string is left alone. */
    method Click(option: string)
      requires option in FilterOptions
      modifies this
      ensures active == option
      ensures query == if isHome then old(query) else QueryAfterClick(option)
    {
      active := option;
      if !isHome {
        query := if option != AllOption then map["filter" := option] else map[];
      }
    }
  }
}
