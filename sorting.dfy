/** The six sort orders of the dashboard and the stable sort that applies them.
    `Array.prototype.sort` is required to be stable by section 22.1.3.27 of
    ECMA-262 (10th edition), so the sort here is a stable insertion sort whose
    result is proved sorted, a permutation of its input, and order-preserving
    on ties. */
module Sorting {
  import opened Text
  import opened Entries

  datatype SortKey = Newest | Oldest | Name | Category | Favorites | MostClicked

  function FavoriteBit(e: Entry): int
  {
    if e.isFavorite then 1 else 0
  }

  /** The comparator passed to `sort` for each key: negative when `a` belongs
      before `b`, zero on a tie, positive when `a` belongs after `b`. */
  function Compare(k: SortKey, a: Entry, b: Entry): int
  {
    match k
    case Newest => b.createdAt - a.createdAt
    case Oldest => a.createdAt - b.createdAt
    case Name => LexCompare(a.name, b.name)
    case Category => LexCompare(a.category, b.category)
    case Favorites => FavoriteBit(b) - FavoriteBit(a)
    case MostClicked => ClicksOrZero(b) - ClicksOrZero(a)
  }

  /** Every comparator is antisymmetric: swapping the arguments flips the sign. */
  lemma CompareFlip(k: SortKey, a: Entry, b: Entry)
    ensures Compare(k, b, a) == -Compare(k, a, b)
  {
    match k
    case Name => LexCompareFlip(a.name, b.name);
    case Category => LexCompareFlip(a.category, b.category);
    case _ =>
  }

  /** Every comparator is transitive. */
  lemma CompareTrans(k: SortKey, a: Entry, b: Entry, c: Entry)
    requires Compare(k, a, b) <= 0 && Compare(k, b, c) <= 0
    ensures Compare(k, a, c) <= 0
  {
    match k
    case Name => LexCompareTrans(a.name, b.name, c.name);
    case Category => LexCompareTrans(a.category, b.category, c.category);
    case _ =>
  }

  /** Every entry is tied with itself under every key. */
  lemma TieRefl(k: SortKey, a: Entry)
    ensures Compare(k, a, a) == 0
  {
    LexCompareZero(a.name, a.name);
    LexCompareZero(a.category, a.category);
  }

  /** A tie is symmetric. */
  lemma TieSym(k: SortKey, a: Entry, b: Entry)
    requires Compare(k, a, b) == 0
    ensures Compare(k, b, a) == 0
  {
    CompareFlip(k, a, b);
  }

  /** Ties are transitive: two entries tied with a third are tied with each
      other. With `TieRefl` and `TieSym`, ties form an equivalence. */
  lemma TieTrans(k: SortKey, a: Entry, b: Entry, c: Entry)
    requires Compare(k, a, b) == 0 && Compare(k, b, c) == 0
    ensures Compare(k, a, c) == 0
  {
    match k
    case Name =>
      LexCompareZero(a.name, b.name);
      LexCompareZero(b.name, c.name);
      LexCompareZero(a.name, c.name);
    case Category =>
      LexCompareZero(a.category, b.category);
      LexCompareZero(b.category, c.category);
      LexCompareZero(a.category, c.category);
    case _ =>
  }

  /** The comparator never puts a later element before an earlier one. */
  predicate Sorted(k: SortKey, s: seq<Entry>)
  {
    forall i, j :: 0 <= i < j < |s| ==> Compare(k, s[i], s[j]) <= 0
  }

  /** Places `x` in front of the first element it does not compare above. */
  function Insert(k: SortKey, x: Entry, t: seq<Entry>): (r: seq<Entry>)
    ensures multiset(r) == multiset(t) + multiset{x}
  {
    if t == [] then [x]
    else if Compare(k, x, t[0]) <= 0 then [x] + t
    else
      assert t == [t[0]] + t[1..];
      [t[0]] + Insert(k, x, t[1..])
  }

  /** The stable sort: each element, from the last to the first, is inserted
      in front of everything it ties with. */
  function SortBy(s: seq<Entry>, k: SortKey): (r: seq<Entry>)
    ensures multiset(r) == multiset(s)
  {
    if s == [] then []
    else
      assert s == [s[0]] + s[1..];
      Insert(k, s[0], SortBy(s[1..], k))
  }

  lemma SortedCons(k: SortKey, a: Entry, u: seq<Entry>)
    requires Sorted(k, u)
    requires forall e :: e in u ==> Compare(k, a, e) <= 0
    ensures Sorted(k, [a] + u)
  {
    var s := [a] + u;
    forall i, j | 0 <= i < j < |s|
      ensures Compare(k, s[i], s[j]) <= 0
    {
      assert s[j] == u[j - 1];
      if i > 0 {
        assert s[i] == u[i - 1];
      }
    }
  }

  lemma SortedHead(k: SortKey, t: seq<Entry>)
    requires Sorted(k, t) && t != []
    ensures forall e :: e in t[1..] ==> Compare(k, t[0], e) <= 0
  {
    forall e | e in t[1..]
      ensures Compare(k, t[0], e) <= 0
    {
      var m :| 0 <= m < |t[1..]| && t[1..][m] == e;
      assert t[m + 1] == e;
    }
  }

  lemma {:induction false} InsertSorted(k: SortKey, x: Entry, t: seq<Entry>)
    requires Sorted(k, t)
    ensures Sorted(k, Insert(k, x, t))
  {
    if t == [] {
    } else if Compare(k, x, t[0]) <= 0 {
      SortedHead(k, t);
      forall e | e in t
        ensures Compare(k, x, e) <= 0
      {
        if e != t[0] {
          assert e in t[1..];
          CompareTrans(k, x, t[0], e);
        }
      }
      SortedCons(k, x, t);
    } else {
      var u := Insert(k, x, t[1..]);
      assert Sorted(k, t[1..]);
      InsertSorted(k, x, t[1..]);
      SortedHead(k, t);
      CompareFlip(k, x, t[0]);
      forall e | e in u
        ensures Compare(k, t[0], e) <= 0
      {
        assert e in multiset(u);
        if e != x {
          assert e in multiset(t[1..]);
        }
      }
      SortedCons(k, t[0], u);
    }
  }

  /** The result of every sort key is ordered by that key's comparator. */
  lemma {:induction false} SortBySorted(s: seq<Entry>, k: SortKey)
    ensures Sorted(k, SortBy(s, k))
  {
    if s != [] {
      SortBySorted(s[1..], k);
      InsertSorted(k, s[0], SortBy(s[1..], k));
    }
  }

  /** The elements of `s` that tie with `x`, in their order in `s`. */
  function TiedWith(k: SortKey, x: Entry, s: seq<Entry>): seq<Entry>
  {
    if s == [] then []
    else Tie(k, x, s[0]) + TiedWith(k, x, s[1..])
  }

  function Tie(k: SortKey, x: Entry, e: Entry): seq<Entry>
  {
    if Compare(k, x, e) == 0 then [e] else []
  }

  lemma TiedWithCons(k: SortKey, x: Entry, a: Entry, u: seq<Entry>)
    ensures TiedWith(k, x, [a] + u) == Tie(k, x, a) + TiedWith(k, x, u)
  {
    assert ([a] + u)[0] == a;
    assert ([a] + u)[1..] == u;
  }

  /** An element that compares strictly above `y` is never in `y`'s tie class,
      so the two can pass each other without changing any tie class's order. */
  lemma TieSwap(k: SortKey, x: Entry, y: Entry, e: Entry)
    requires Compare(k, y, e) > 0
    ensures Tie(k, x, e) + Tie(k, x, y) == Tie(k, x, y) + Tie(k, x, e)
  {
    if Compare(k, x, y) == 0 && Compare(k, x, e) == 0 {
      CompareFlip(k, x, y);
      TieTrans(k, y, x, e);
    }
  }

  lemma AppendAssoc(a: seq<Entry>, b: seq<Entry>, c: seq<Entry>)
    ensures a + (b + c) == (a + b) + c
  {
  }

  lemma {:induction false} InsertStable(k: SortKey, x: Entry, y: Entry, t: seq<Entry>)
    ensures TiedWith(k, x, Insert(k, y, t)) == TiedWith(k, x, [y] + t)
  {
    if t != [] && Compare(k, y, t[0]) > 0 {
      var u := Insert(k, y, t[1..]);
      InsertStable(k, x, y, t[1..]);
      TieSwap(k, x, y, t[0]);
      calc {
        TiedWith(k, x, Insert(k, y, t));
        TiedWith(k, x, [t[0]] + u);
        { TiedWithCons(k, x, t[0], u); }
        Tie(k, x, t[0]) + TiedWith(k, x, u);
        Tie(k, x, t[0]) + TiedWith(k, x, [y] + t[1..]);
        { TiedWithCons(k, x, y, t[1..]); }
        Tie(k, x, t[0]) + (Tie(k, x, y) + TiedWith(k, x, t[1..]));
        { AppendAssoc(Tie(k, x, t[0]), Tie(k, x, y), TiedWith(k, x, t[1..])); }
        (Tie(k, x, t[0]) + Tie(k, x, y)) + TiedWith(k, x, t[1..]);
        (Tie(k, x, y) + Tie(k, x, t[0])) + TiedWith(k, x, t[1..]);
        { AppendAssoc(Tie(k, x, y), Tie(k, x, t[0]), TiedWith(k, x, t[1..])); }
        Tie(k, x, y) + (Tie(k, x, t[0]) + TiedWith(k, x, t[1..]));
        { TiedWithCons(k, x, t[0], t[1..]); assert [t[0]] + t[1..] == t; }
        Tie(k, x, y) + TiedWith(k, x, t);
        { TiedWithCons(k, x, y, t); }
        TiedWith(k, x, [y] + t);
      }
    }
  }

  /** Stability: for every tie class, the sorted list holds exactly the same
      elements of that class in exactly the same order as the input. */
  lemma {:induction false} SortByStable(s: seq<Entry>, k: SortKey, x: Entry)
    ensures TiedWith(k, x, SortBy(s, k)) == TiedWith(k, x, s)
  {
    if s != [] {
      SortByStable(s[1..], k, x);
      InsertStable(k, x, s[0], SortBy(s[1..], k));
      TiedWithCons(k, x, s[0], SortBy(s[1..], k));
    }
  }

  /** What sortedness means for each key, in the entry's own fields. */
  lemma SortedMeaning(k: SortKey, r: seq<Entry>)
    requires Sorted(k, r)
    ensures k == Newest ==> forall i, j :: 0 <= i < j < |r| ==> r[i].createdAt >= r[j].createdAt
    ensures k == Oldest ==> forall i, j :: 0 <= i < j < |r| ==> r[i].createdAt <= r[j].createdAt
    ensures k == MostClicked ==> forall i, j :: 0 <= i < j < |r| ==> ClicksOrZero(r[i]) >= ClicksOrZero(r[j])
    ensures k == Favorites ==> forall i, j :: 0 <= i < j < |r| && r[j].isFavorite ==> r[i].isFavorite
    ensures k == Name ==> forall i, j :: 0 <= i < j < |r| ==> LexCompare(r[i].name, r[j].name) <= 0
    ensures k == Category ==> forall i, j :: 0 <= i < j < |r| ==> LexCompare(r[i].category, r[j].category) <= 0
  {
    if k == Favorites {
      forall i, j | 0 <= i < j < |r| && r[j].isFavorite
        ensures r[i].isFavorite
      {
        assert Compare(k, r[i], r[j]) <= 0;
      }
    }
  }
}
