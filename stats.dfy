/** The summary shown above the cards (components/Dashboard.tsx, the effect
    that sets `stats`): total entries, distinct categories, favourites and
    total clicks. */
module StatsAggregator {
  import opened Sequences
  import opened Entries

  datatype Stats = Stats(total: nat, categories: nat, favorites: nat, clicks: int)

  /** The distinct category values of the entries. */
  function CategorySet(entries: seq<Entry>): set<string>
  {
    set e | e in entries :: e.category
  }

  /** The click total as the source computes it: a left fold from `acc`
      adding each entry's count, an absent count adding zero. */
  function ReduceClicks(entries: seq<Entry>, acc: int): int
    decreases |entries|
  {
    if entries == [] then acc
    else ReduceClicks(entries[1..], acc + ClicksOrZero(entries[0]))
  }

  function ComputeStats(entries: seq<Entry>): Stats
  {
    Stats(|entries|, |CategorySet(entries)|, |Filter(entries, IsFavorite)|, ReduceClicks(entries, 0))
  }

  /** The empty collection gives all zeros. */
  lemma StatsEmpty()
    ensures ComputeStats([]) == Stats(0, 0, 0, 0)
  {
    assert CategorySet([]) == {};
  }

  /** Folding over one more entry adds that entry's count to the result. */
  lemma {:induction false} ReduceClicksSnoc(entries: seq<Entry>, e: Entry, acc: int)
    ensures ReduceClicks(entries + [e], acc) == ReduceClicks(entries, acc) + ClicksOrZero(e)
    decreases |entries|
  {
    if entries == [] {
      assert [] + [e] == [e];
      assert [e][1..] == [];
    } else {
      assert (entries + [e])[1..] == entries[1..] + [e];
      ReduceClicksSnoc(entries[1..], e, acc + ClicksOrZero(entries[0]));
    }
  }

  lemma CategorySetSnoc(entries: seq<Entry>, e: Entry)
    ensures CategorySet(entries + [e]) == CategorySet(entries) + {e.category}
  {
    var cs := entries + [e];
    forall c | c in CategorySet(cs)
      ensures c in CategorySet(entries) + {e.category}
    {
      var x :| x in cs && x.category == c;
      if x != e {
        assert x in entries;
      }
    }
  }

  lemma CardAddOne(a: set<string>, c: string)
    ensures |a + {c}| == |a| + (if c in a then 0 else 1)
  {
    if c in a {
      assert a + {c} == a;
    } else {
      assert a * {c} == {};
    }
  }

  /** The stats of a collection are determined entry by entry: appending one
      entry adds one to the total, one to the categories exactly when its
      category is new, one to the favourites exactly when it is a favourite,
      and its click count (absent read as 0) to the clicks. */
  lemma StatsSnoc(entries: seq<Entry>, e: Entry)
    ensures var s := ComputeStats(entries);
      ComputeStats(entries + [e]) == Stats(
        s.total + 1,
        s.categories + (if e.category in CategorySet(entries) then 0 else 1),
        s.favorites + (if e.isFavorite then 1 else 0),
        s.clicks + ClicksOrZero(e))
  {
    CategorySetSnoc(entries, e);
    CardAddOne(CategorySet(entries), e.category);
    FilterConcat(entries, [e], IsFavorite);
    assert Filter([e], IsFavorite) == if e.isFavorite then [e] else [] by {
      assert [e][1..] == [];
    }
    ReduceClicksSnoc(entries, e, 0);
  }

  /** Categories and favourites never exceed the total; a non-empty collection
      has at least one category; with no negative click counts the clicks
      total is not negative. */
  lemma {:induction false} StatsBounds(entries: seq<Entry>)
    ensures var s := ComputeStats(entries);
      && s.categories <= s.total
      && s.favorites <= s.total
      && (s.total > 0 ==> s.categories >= 1)
      && ((forall e :: e in entries ==> ClicksOrZero(e) >= 0) ==> s.clicks >= 0)
    decreases |entries|
  {
    if entries == [] {
      StatsEmpty();
    } else {
      var init := entries[..|entries| - 1];
      var last := entries[|entries| - 1];
      assert entries == init + [last];
      StatsBounds(init);
      StatsSnoc(init, last);
      if forall e :: e in entries ==> ClicksOrZero(e) >= 0 {
        assert forall e :: e in init ==> e in entries;
      }
    }
  }

  lemma CategorySetUpdate(entries: seq<Entry>, i: nat, e: Entry)
    requires i < |entries| && e.category == entries[i].category
    ensures CategorySet(entries[i := e]) == CategorySet(entries)
  {
    var after := entries[i := e];
    forall c | c in CategorySet(entries)
      ensures c in CategorySet(after)
    {
      var x :| x in entries && x.category == c;
      var j :| 0 <= j < |entries| && entries[j] == x;
      assert after[j].category == c;
    }
    forall c | c in CategorySet(after)
      ensures c in CategorySet(entries)
    {
      var x :| x in after && x.category == c;
      var j :| 0 <= j < |after| && after[j] == x;
      assert entries[j].category == c;
    }
  }

  /** Opening an entry that has a URL raises the clicks total by exactly one
      and leaves the other three figures as they were. */
  lemma {:induction false} StatsAfterClick(entries: seq<Entry>, i: nat, openedAt: string)
    requires i < |entries| && HasUrl(entries[i])
    ensures var s := ComputeStats(entries);
      ComputeStats(entries[i := Clicked(entries[i], openedAt)]) == s.(clicks := s.clicks + 1)
    decreases |entries|
  {
    var n := |entries|;
    var init := entries[..n - 1];
    var last := entries[n - 1];
    var clicked := Clicked(entries[i], openedAt);
    assert entries == init + [last];
    ClickedCountsOneMore(entries[i], openedAt);
    if i == n - 1 {
      assert entries[i := clicked] == init + [clicked];
      StatsSnoc(init, last);
      StatsSnoc(init, clicked);
    } else {
      var init' := init[i := clicked];
      assert entries[i := clicked] == init' + [last];
      assert init[i] == entries[i];
      StatsAfterClick(init, i, openedAt);
      CategorySetUpdate(init, i, clicked);
      StatsSnoc(init, last);
      StatsSnoc(init', last);
    }
  }

  /** Categories {"mining", "mining", "staking"} count as two distinct ones. */
  lemma DistinctCategoriesExample(a: Entry, b: Entry, c: Entry)
    requires a.category == "mining" && b.category == "mining" && c.category == "staking"
    ensures ComputeStats([a, b, c]).categories == 2
  {
    assert CategorySet([a, b, c]) == {"mining", "staking"};
    assert "mining" != "staking";
  }
}
