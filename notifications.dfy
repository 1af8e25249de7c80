/** The notification list (components/Dashboard.tsx, `showNotification`):
    a push appends a message whose id is the current time in milliseconds,
    and a timer set for 5000 ms later removes every notification with that id. */
module Notifications {
  import opened Sequences

  datatype Kind = Success | Error | Warning | Info

  datatype Notification = Notification(id: int, message: string, kind: Kind)

  /** The kind `showNotification` uses when its caller gives none. */
  const DefaultKind := Success

  function KeepsId(id: int): Notification -> bool
  {
    (n: Notification) => n.id != id
  }

  /** The timer callback's update: keep the notifications whose id differs. */
  function RemoveId(ns: seq<Notification>, id: int): (r: seq<Notification>)
    ensures forall n :: n in r <==> n in ns && n.id != id
  {
    var r := Filter(ns, KeepsId(id));
    FilterMultiset(ns, KeepsId(id));
    assert forall n :: n in r <==> multiset(r)[n] > 0;
    r
  }

  /** Removal keeps the survivors in their order: removing from a
      concatenation removes from each part. */
  lemma RemoveIdConcat(a: seq<Notification>, b: seq<Notification>, id: int)
    ensures RemoveId(a + b, id) == RemoveId(a, id) + RemoveId(b, id)
  {
    FilterConcat(a, b, KeepsId(id));
  }

  /** A notification whose id is not the expired one survives the expiry. */
  lemma RemoveIdKeepsOthers(ns: seq<Notification>, id: int)
    requires forall n :: n in ns ==> n.id != id
    ensures RemoveId(ns, id) == ns
  {
    FilterKeepsAll(ns, KeepsId(id));
  }

  /** A second expiry of the same id changes nothing. */
  lemma ExpireTwice(ns: seq<Notification>, id: int)
    ensures RemoveId(RemoveId(ns, id), id) == RemoveId(ns, id)
  {
    FilterIdempotent(ns, KeepsId(id));
  }

  /** Expiries commute: the order in which the timers of two pushes fire does
      not matter. */
  lemma {:induction false} ExpiriesCommute(ns: seq<Notification>, a: int, b: int)
    ensures RemoveId(RemoveId(ns, a), b) == RemoveId(RemoveId(ns, b), a)
  {
    if ns != [] {
      var h := ns[0];
      assert ns == [h] + ns[1..];
      ExpiriesCommute(ns[1..], a, b);
      RemoveIdConcat([h], ns[1..], a);
      RemoveIdConcat([h], ns[1..], b);
      var ha := RemoveId([h], a);
      var hb := RemoveId([h], b);
      assert [h][1..] == [];
      RemoveIdConcat(ha, RemoveId(ns[1..], a), b);
      RemoveIdConcat(hb, RemoveId(ns[1..], b), a);
      assert RemoveId(ha, b) == RemoveId(hb, a) by {
        if h.id != a {
          assert ha == [h];
        }
        if h.id != b {
          assert hb == [h];
        }
        if h.id == a {
          assert ha == [];
        }
        if h.id == b {
          assert hb == [];
        }
      }
    }
  }

  /** Push then expire round trip: when no earlier notification shares the new
      one's id, its expiry restores the list exactly as it was before the push. */
  lemma PushThenExpire(ns: seq<Notification>, n: Notification)
    requires forall m :: m in ns ==> m.id != n.id
    ensures RemoveId(ns + [n], n.id) == ns
  {
    RemoveIdConcat(ns, [n], n.id);
    RemoveIdKeepsOthers(ns, n.id);
    assert [n][1..] == [];
  }

  /** The expiry of another id keeps a just-pushed notification at the end. */
  lemma ExpireOtherKeepsNewest(ns: seq<Notification>, n: Notification, id: int)
    requires n.id != id
    ensures RemoveId(ns + [n], id) == RemoveId(ns, id) + [n]
  {
    RemoveIdConcat(ns, [n], id);
    assert [n][1..] == [];
  }

  /** Ids are timestamps, so two pushes in the same millisecond share an id, and
      the first timer to fire removes both of them. */
  lemma SameMillisecondExpiresTogether(ns: seq<Notification>, m1: string, k1: Kind,
                                       m2: string, k2: Kind, now: int)
    ensures var r := RemoveId(ns + [Notification(now, m1, k1)] + [Notification(now, m2, k2)], now);
      Notification(now, m1, k1) !in r && Notification(now, m2, k2) !in r
  {
  }
}
