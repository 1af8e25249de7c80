/** The dashboard's entry record and the two small rules the source applies
    to a single entry's click count. */
module Entries {
  import opened Wrappers

  datatype Status = Active | Attention | Inactive

  /** One curated record. `createdAt` is the creation timestamp in
      milliseconds; `clickCount` is `None` when the store returns no count. */
  datatype Entry = Entry(
    id: string,
    userId: string,
    name: string,
    category: string,
    url: Option<string>,
    description: Option<string>,
    tags: Option<seq<string>>,
    image: string,
    isFavorite: bool,
    clickCount: Option<int>,
    lastOpened: Option<string>,
    status: Status,
    cardColor: string,
    shareCode: Option<string>,
    createdAt: int)

  /** The click count as the dashboard reads it: an absent count is zero. */
  function ClicksOrZero(e: Entry): int
  {
    match e.clickCount
    case Some(c) => c
    case None => 0
  }

  predicate IsFavorite(e: Entry)
  {
    e.isFavorite
  }

  /** Whether the entry has a URL; a null and an empty URL both count as missing. */
  predicate HasUrl(e: Entry)
  {
    e.url.Some? && e.url.value != ""
  }

  /** The click count `openMiningPage` writes back to the store, or `None`
      when the entry has no URL and the function returns before any update. */
  function ClickUpdate(e: Entry): (r: Option<int>)
    ensures r.None? <==> !HasUrl(e)
    ensures r.Some? ==> r.value - ClicksOrZero(e) == 1
  {
    if !HasUrl(e) then None else Some(ClicksOrZero(e) + 1)
  }

  /** The entry after the store has applied the update: the new count and
      `openedAt`, the ISO time of the click, as the last-opened time. */
  function Clicked(e: Entry, openedAt: string): Entry
    requires HasUrl(e)
  {
    e.(clickCount := ClickUpdate(e), lastOpened := Some(openedAt))
  }

  /** Once written back, the displayed count is one more than before, the
      last-opened time is the click's, and every other field is unchanged. */
  lemma ClickedCountsOneMore(e: Entry, openedAt: string)
    requires HasUrl(e)
    ensures ClicksOrZero(Clicked(e, openedAt)) == ClicksOrZero(e) + 1
    ensures Clicked(e, openedAt).lastOpened == Some(openedAt)
    ensures Clicked(e, openedAt).category == e.category && Clicked(e, openedAt).isFavorite == e.isFavorite
    ensures Clicked(e, openedAt).createdAt == e.createdAt && Clicked(e, openedAt).name == e.name
    ensures Clicked(e, openedAt).(clickCount := e.clickCount, lastOpened := e.lastOpened) == e
  {
  }
}
