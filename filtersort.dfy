/** The view pipeline of the dashboard: from the loaded entries and the
    current filters to the list of cards shown (components/Dashboard.tsx,
    the effect that sets `filteredEntries`). */
module FilterSort {
  import opened Wrappers
  import opened Text
  import opened Sequences
  import opened Entries
  import opened Sorting

  /** The `filters` state: free-text search, selected category and sort key,
      each as the raw string the form controls hold. */
  datatype Filters = Filters(search: string, category: string, sortBy: string)

  const InitialFilters := Filters("", "", "newest")

  /** The pseudo-category that selects favourites instead of a stored category. */
  const FavoritesCategory := "favorites"

  datatype FilterKey = SearchField | CategoryField | SortByField

  function Field(f: Filters, key: FilterKey): string
  {
    match key
    case SearchField => f.search
    case CategoryField => f.category
    case SortByField => f.sortBy
  }

  /** The filter update of `handleFilterChange`: a copy of the record with one key replaced. */
  function WithFilter(f: Filters, key: FilterKey, value: string): (r: Filters)
    ensures Field(r, key) == value
    ensures forall other :: other != key ==> Field(r, other) == Field(f, other)
  {
    match key
    case SearchField => f.(search := value)
    case CategoryField => f.(category := value)
    case SortByField => f.(sortBy := value)
  }

  /** The `case` labels of the sort `switch`; any other string matches none. */
  function ParseSortKey(s: string): Option<SortKey>
  {
    if s == "newest" then Some(Newest)
    else if s == "oldest" then Some(Oldest)
    else if s == "name" then Some(Name)
    else if s == "category" then Some(Category)
    else if s == "favorites" then Some(Favorites)
    else if s == "mostClicked" then Some(MostClicked)
    else None
  }

  /** The search test against an already lower-cased term. A missing
      description or tag list is a non-match, not an error. */
  predicate MatchesSearch(e: Entry, term: string)
  {
    || Contains(ToLower(e.name), term)
    || (e.description.Some? && Contains(ToLower(e.description.value), term))
    || (e.tags.Some? && exists t :: t in e.tags.value && Contains(ToLower(t), term))
  }

  function MatchesTerm(term: string): Entry -> bool
  {
    e => MatchesSearch(e, term)
  }

  /** The category test: the pseudo-category selects favourites, any other
      value selects entries stored under exactly that category. */
  predicate InCategory(e: Entry, category: string)
  {
    if category == FavoritesCategory then e.isFavorite else e.category == category
  }

  function InCategoryOf(category: string): Entry -> bool
  {
    e => InCategory(e, category)
  }

  /** The two filter steps, on a copy of the entries, before any sort. */
  function Filtered(entries: seq<Entry>, f: Filters): seq<Entry>
  {
    var searched := if f.search != "" then Filter(entries, MatchesTerm(ToLower(f.search))) else entries;
    if f.category != "" then Filter(searched, InCategoryOf(f.category)) else searched
  }

  /** The list shown: the filtered entries sorted by the selected key, or left
      in filtered order when the key is none of the six. */
  function FilteredEntries(entries: seq<Entry>, f: Filters): seq<Entry>
  {
    match ParseSortKey(f.sortBy)
    case Some(k) => SortBy(Filtered(entries, f), k)
    case None => Filtered(entries, f)
  }

  /** Whether one entry survives both filters. */
  predicate Keep(f: Filters, e: Entry)
  {
    && (f.search == "" || MatchesSearch(e, ToLower(f.search)))
    && (f.category == "" || InCategory(e, f.category))
  }

  /** The view holds each entry that passes both filters exactly as many
      times as the input does, and nothing else: it never invents or
      duplicates an entry. */
  lemma FilteredEntriesContents(entries: seq<Entry>, f: Filters)
    ensures forall e ::
      multiset(FilteredEntries(entries, f))[e] == (if Keep(f, e) then multiset(entries)[e] else 0)
  {
    var searched := if f.search != "" then Filter(entries, MatchesTerm(ToLower(f.search))) else entries;
    if f.search != "" {
      FilterMultiset(entries, MatchesTerm(ToLower(f.search)));
    }
    if f.category != "" {
      FilterMultiset(searched, InCategoryOf(f.category));
    }
  }

  /** With no search and no category the view is a permutation of the input. */
  lemma UnfilteredIsPermutation(entries: seq<Entry>, f: Filters)
    requires f.search == "" && f.category == ""
    ensures multiset(FilteredEntries(entries, f)) == multiset(entries)
  {
    FilteredEntriesContents(entries, f);
    assert forall e :: multiset(FilteredEntries(entries, f))[e] == multiset(entries)[e];
  }

  /** A non-empty search keeps an entry exactly when the lower-cased term occurs
      in the lower-cased name, in the description if there is one, or in
      some tag if there are tags. */
  lemma SearchKeepsExactly(entries: seq<Entry>, f: Filters, e: Entry)
    requires f.search != "" && f.category == ""
    ensures var term := ToLower(f.search);
      e in FilteredEntries(entries, f) <==>
        && e in entries
        && (|| Occurs(term, ToLower(e.name))
            || (e.description.Some? && Occurs(term, ToLower(e.description.value)))
            || (e.tags.Some? && exists t :: t in e.tags.value && Occurs(term, ToLower(t))))
  {
    var term := ToLower(f.search);
    FilteredEntriesContents(entries, f);
    assert e in FilteredEntries(entries, f) <==> multiset(FilteredEntries(entries, f))[e] > 0;
    ContainsIff(ToLower(e.name), term);
    if e.description.Some? {
      ContainsIff(ToLower(e.description.value), term);
    }
    if e.tags.Some? {
      forall t | t in e.tags.value {
        ContainsIff(ToLower(t), term);
      }
    }
  }

  /** The category "favorites" keeps exactly the favourite entries, any other
      non-empty category exactly the entries stored under it, whatever the
      sort key. */
  lemma CategoryKeepsExactly(entries: seq<Entry>, f: Filters)
    requires f.search == "" && f.category != ""
    ensures f.category == FavoritesCategory ==>
      forall e ::
        multiset(FilteredEntries(entries, f))[e] == (if e.isFavorite then multiset(entries)[e] else 0)
    ensures f.category != FavoritesCategory ==>
      forall e ::
        multiset(FilteredEntries(entries, f))[e] == (if e.category == f.category then multiset(entries)[e] else 0)
  {
    FilteredEntriesContents(entries, f);
  }

  /** The order of the view for each sort key; an unrecognised key leaves the
      filtered order untouched. */
  lemma FilteredEntriesOrder(entries: seq<Entry>, f: Filters)
    ensures var r := FilteredEntries(entries, f);
      && (f.sortBy == "newest" ==> forall i, j :: 0 <= i < j < |r| ==> r[i].createdAt >= r[j].createdAt)
      && (f.sortBy == "oldest" ==> forall i, j :: 0 <= i < j < |r| ==> r[i].createdAt <= r[j].createdAt)
      && (f.sortBy == "mostClicked" ==> forall i, j :: 0 <= i < j < |r| ==> ClicksOrZero(r[i]) >= ClicksOrZero(r[j]))
      && (f.sortBy == "favorites" ==> forall i, j :: 0 <= i < j < |r| && r[j].isFavorite ==> r[i].isFavorite)
      && (f.sortBy == "name" ==> forall i, j :: 0 <= i < j < |r| ==> LexCompare(r[i].name, r[j].name) <= 0)
      && (f.sortBy == "category" ==> forall i, j :: 0 <= i < j < |r| ==> LexCompare(r[i].category, r[j].category) <= 0)
      && (ParseSortKey(f.sortBy) == None ==> r == Filtered(entries, f))
  {
    match ParseSortKey(f.sortBy)
    case Some(k) =>
      SortBySorted(Filtered(entries, f), k);
      SortedMeaning(k, FilteredEntries(entries, f));
    case None =>
  }

  /** Ties keep their input order: for every entry `x`, the entries of the
      view that tie with `x` under the selected key appear in the same order
      as in the filtered input. */
  lemma FilteredEntriesStable(entries: seq<Entry>, f: Filters, x: Entry)
    requires ParseSortKey(f.sortBy).Some?
    ensures var k := ParseSortKey(f.sortBy).value;
      TiedWith(k, x, FilteredEntries(entries, f)) == TiedWith(k, x, Filtered(entries, f))
  {
    SortByStable(Filtered(entries, f), ParseSortKey(f.sortBy).value, x);
  }

  /** No entries, no cards, whatever the filters. */
  lemma EmptyView(f: Filters)
    ensures FilteredEntries([], f) == []
  {
  }

  function Sample(id: string, name: string, category: string, description: Option<string>,
                  clicks: int, createdAt: int): Entry
  {
    Entry(id, "user", name, category, None, description, None, "", false, Some(clicks),
          None, Active, "", None, createdAt)
  }

  /** Two faucets: "Faucet A" (5 clicks, older) and "Faucet B" (1 click, newer).
      Most-clicked shows A first; newest shows B first. */
  lemma FaucetsExample(t1: int, t2: int)
    requires t1 < t2
    ensures var a := Sample("a", "Faucet A", "faucet", None, 5, t1);
      var b := Sample("b", "Faucet B", "faucet", None, 1, t2);
      && FilteredEntries([a, b], Filters("", "", "mostClicked")) == [a, b]
      && FilteredEntries([a, b], Filters("", "", "newest")) == [b, a]
  {
    var a := Sample("a", "Faucet A", "faucet", None, 5, t1);
    var b := Sample("b", "Faucet B", "faucet", None, 1, t2);
    assert FilteredEntries([a, b], Filters("", "", "mostClicked")) == [a, b] by {
      assert ParseSortKey("mostClicked") == Some(MostClicked) by {
        assert "mostClicked" != "newest" && "mostClicked" != "oldest" && "mostClicked" != "name";
        assert "mostClicked" != "category" && "mostClicked" != "favorites";
      }
      UnfilteredTwo(a, b, "mostClicked", MostClicked);
      assert Compare(MostClicked, a, b) == -4;
    }
    assert FilteredEntries([a, b], Filters("", "", "newest")) == [b, a] by {
      assert ParseSortKey("newest") == Some(Newest);
      UnfilteredTwo(a, b, "newest", Newest);
      assert Compare(Newest, a, b) == t2 - t1;
    }
  }

  lemma UnfilteredTwo(a: Entry, b: Entry, sortBy: string, k: SortKey)
    requires ParseSortKey(sortBy) == Some(k)
    ensures FilteredEntries([a, b], Filters("", "", sortBy)) ==
      if Compare(k, a, b) <= 0 then [a, b] else [b, a]
  {
    assert Filtered([a, b], Filters("", "", sortBy)) == [a, b];
    SortTwo(a, b, k);
  }

  lemma SortTwo(a: Entry, b: Entry, k: SortKey)
    ensures SortBy([a, b], k) == if Compare(k, a, b) <= 0 then [a, b] else [b, a]
  {
    assert [a, b][0] == a && [a, b][1..] == [b];
    SortOne(b, k);
    InsertBeforeOrAfter(a, b, k);
  }

  lemma SortOne(b: Entry, k: SortKey)
    ensures SortBy([b], k) == [b]
  {
    assert [b][0] == b && [b][1..] == [];
  }

  lemma InsertBeforeOrAfter(a: Entry, b: Entry, k: SortKey)
    ensures Insert(k, a, [b]) == if Compare(k, a, b) <= 0 then [a, b] else [b, a]
  {
    assert [b][0] == b && [b][1..] == [];
  }

  /** A search for "faucet" keeps "Mining Pool" through its description
      "best faucet site". */
  lemma DescriptionMatchExample()
    ensures var e := Sample("m", "Mining Pool", "mining", Some("best faucet site"), 0, 0);
      FilteredEntries([e], Filters("faucet", "", "newest")) == [e]
  {
    var e := Sample("m", "Mining Pool", "mining", Some("best faucet site"), 0, 0);
    var desc := ToLower("best faucet site");
    assert desc == "best faucet site";
    assert desc[5..5 + |"faucet"|] == "faucet";
    assert OccursAt("faucet", desc, 5);
    ContainsIff(desc, "faucet");
    assert ToLower("faucet") == "faucet";
    assert MatchesSearch(e, "faucet");
    assert Filter([e], MatchesTerm("faucet")) == [e];
  }
}
