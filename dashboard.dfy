/** The dashboard component's state (components/Dashboard.tsx, the `useState`
    hooks) and the handlers that update it. The effects that recompute the
    view and the stats whenever the entries or the filters change are folded
    into the handlers that change them, and `Valid` states that the
    displayed list and stats always agree with the entries and filters. */
module DashboardState {
  import opened Wrappers
  import opened Entries
  import opened FilterSort
  import opened StatsAggregator
  import opened Notifications
  import opened Modals
  import opened ShareCode

  const LoadErrorMessage := "Error al cargar las entradas"
  const ShareCodeErrorMessage := "No se pudo generar c\U{f3}digo de colecci\U{f3}n."
  const DeleteOneMessage := "\U{bf}Seguro que quieres eliminar esta entrada?"
  const DeleteAllMessage := "\U{bf}Borrar todas las entradas permanentemente?"

  class Dashboard {
    var entries: seq<Entry>
    var filteredEntries: seq<Entry>
    var stats: Stats
    var modals: ModalFlags
    var editingEntry: Option<Entry>
    var confirmAction: Option<ConfirmRequest>
    var shareEntry: Option<ShareTarget>
    var notifications: seq<Notification>
    var filters: Filters
    var collectionShareCode: Option<string>

    /** The derived state is up to date with the entries and filters. */
    ghost predicate Valid()
      reads this
    {
      && filteredEntries == FilteredEntries(entries, filters)
      && stats == ComputeStats(entries)
    }

    /** The initial state: nothing loaded, every dialog closed, default filters. */
    constructor ()
      ensures Valid()
      ensures entries == [] && filteredEntries == [] && stats == Stats(0, 0, 0, 0)
      ensures modals == AllClosed && editingEntry == None && confirmAction == None && shareEntry == None
      ensures notifications == [] && filters == InitialFilters && collectionShareCode == None
    {
      entries, filteredEntries := [], [];
      StatsEmpty();
      stats := Stats(0, 0, 0, 0);
      modals := AllClosed;
      editingEntry, confirmAction, shareEntry := None, None, None;
      notifications := [];
      filters := InitialFilters;
      collectionShareCode := None;
    }

    /** `showNotification(message, kind)` at time `now`, with `kind` defaulting
        to `DefaultKind`: the new notification, with id `now`, goes at the end
        and the others keep their order. Its timer is `ExpireNotification(now)`
        run 5000 ms later. */
    method ShowNotification(message: string, now: int, kind: Kind := DefaultKind)
      modifies this`notifications
      ensures notifications == old(notifications) + [Notification(now, message, kind)]
    {
      notifications := notifications + [Notification(now, message, kind)];
    }

    /** The timer callback of a push whose id was `id`: every notification with
        that id goes, the rest keep their order. */
    method ExpireNotification(id: int)
      modifies this`notifications
      ensures notifications == RemoveId(old(notifications), id)
      ensures forall n :: n in notifications <==> n in old(notifications) && n.id != id
    {
      notifications := RemoveId(notifications, id);
    }

    /** `loadData`: `fetched` is the store's answer, `None` when the query
        failed. A failure shows an error and empties the collection. */
    method LoadData(fetched: Option<seq<Entry>>, now: int)
      requires Valid()
      modifies this`entries, this`filteredEntries, this`stats, this`notifications
      ensures Valid()
      ensures entries == (if fetched.Some? then fetched.value else [])
      ensures notifications == if fetched.Some? then old(notifications)
                               else old(notifications) + [Notification(now, LoadErrorMessage, Error)]
    {
      var loaded: seq<Entry>;
      if fetched.None? {
        ShowNotification(LoadErrorMessage, now, Error);
        loaded := [];
      } else {
        loaded := fetched.value;
      }
      entries := loaded;
      filteredEntries := FilteredEntries(entries, filters);
      stats := ComputeStats(entries);
    }

    /** `handleFilterChange(key, value)`: one filter changes, the others keep
        their values, and the view follows. */
    method HandleFilterChange(key: FilterKey, value: string)
      requires Valid()
      modifies this`filters, this`filteredEntries
      ensures Valid()
      ensures Field(filters, key) == value
      ensures forall other :: other != key ==> Field(filters, other) == Field(old(filters), other)
    {
      filters := WithFilter(filters, key, value);
      filteredEntries := FilteredEntries(entries, filters);
    }

    /** `getOrCreateCode`: `stored` is the settings row, `offset` the floored
        random part. Returns the value written back to the store, if any. */
    method LoadCollectionShareCode(stored: Option<string>, offset: int) returns (written: Option<string>)
      requires 0 <= offset < CodeSpan
      modifies this`collectionShareCode
      ensures collectionShareCode == Some(Resolve(stored, offset).code)
      ensures IsSet(stored) ==> collectionShareCode == stored && written == None
      ensures !IsSet(stored) ==> written == collectionShareCode && |collectionShareCode.value| == 10
    {
      var r := Resolve(stored, offset);
      collectionShareCode := Some(r.code);
      written := r.store;
    }

    /** `handleShareAll`: without a code, one error notification and nothing
        else changes; with one, the collection becomes the share payload and
        the share dialog is the only one open. */
    method HandleShareAll(now: int)
      modifies this`notifications, this`shareEntry, this`modals
      ensures !IsSet(collectionShareCode) ==>
        && notifications == old(notifications) + [Notification(now, ShareCodeErrorMessage, Error)]
        && modals == old(modals) && shareEntry == old(shareEntry)
      ensures IsSet(collectionShareCode) ==>
        && shareEntry == Some(CollectionTarget(collectionShareCode.value))
        && modals == Only(Share)
        && notifications == old(notifications)
    {
      if !IsSet(collectionShareCode) {
        ShowNotification(ShareCodeErrorMessage, now, Error);
        return;
      }
      shareEntry := Some(CollectionTarget(collectionShareCode.value));
      modals := Only(Share);
    }

    /** Menu "Integrar Tarjeta": the add-by-URL dialog alone. */
    method OpenAddByUrl()
      modifies this`modals
      ensures modals == Only(AddUrl)
    {
      modals := Only(AddUrl);
    }

    /** Menu "Agregar Página": a blank add form, alone. */
    method OpenAddNew()
      modifies this`modals, this`editingEntry
      ensures editingEntry == None && modals == Only(Add)
    {
      editingEntry := None;
      modals := Only(Add);
    }

    /** Menu "Exportar/Importar": the export dialog alone. */
    method OpenExport()
      modifies this`modals
      ensures modals == Only(Export)
    {
      modals := Only(Export);
    }

    /** Menu "Borrar Todo": a pending delete of every entry of `userId`, and the
        confirmation dialog alone. */
    method OpenDeleteAll(userId: string)
      modifies this`modals, this`confirmAction
      ensures confirmAction == Some(ConfirmRequest(DeleteAllMessage, DeleteAllEntries(userId), "Formatear"))
      ensures modals == Only(Confirm)
    {
      confirmAction := Some(ConfirmRequest(DeleteAllMessage, DeleteAllEntries(userId), "Formatear"));
      modals := Only(Confirm);
    }

    /** Empty-state "Agregar Primera Entrada": a blank add form, other flags kept. */
    method OpenAddFirst()
      modifies this`modals, this`editingEntry
      ensures editingEntry == None && modals == With(old(modals), Add, true)
    {
      editingEntry := None;
      modals := With(modals, Add, true);
    }

    /** A card's share button: that entry becomes the payload, other flags kept. */
    method OpenShare(entry: Entry)
      modifies this`modals, this`shareEntry
      ensures shareEntry == Some(SharedEntry(entry)) && modals == With(old(modals), Share, true)
    {
      shareEntry := Some(SharedEntry(entry));
      modals := With(modals, Share, true);
    }

    /** A card's edit button: the form is filled with the entry, other flags kept. */
    method OpenEdit(entry: Entry)
      modifies this`modals, this`editingEntry
      ensures editingEntry == Some(entry) && modals == With(old(modals), Add, true)
    {
      editingEntry := Some(entry);
      modals := With(modals, Add, true);
    }

    /** A card's delete button: a pending delete of that entry, other flags kept. */
    method OpenDeleteOne(entry: Entry)
      modifies this`modals, this`confirmAction
      ensures confirmAction == Some(ConfirmRequest(DeleteOneMessage, DeleteEntry(entry.id), "Eliminar"))
      ensures modals == With(old(modals), Confirm, true)
    {
      confirmAction := Some(ConfirmRequest(DeleteOneMessage, DeleteEntry(entry.id), "Eliminar"));
      modals := With(modals, Confirm, true);
    }

    /** The floating menu button: the menu opens, other flags kept. */
    method OpenMenu()
      modifies this`modals
      ensures modals == With(old(modals), Menu, true)
    {
      modals := With(modals, Menu, true);
    }

    /** The menu's close button, and the modal part of every menu action that
        runs something and then closes the menu. */
    method CloseMenu()
      modifies this`modals
      ensures modals == With(old(modals), Menu, false)
    {
      modals := With(modals, Menu, false);
    }
  }
}
