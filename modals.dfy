/** The modal state of the dashboard: six independent visibility flags
    (`modals`) and the payloads the dialogs read (`editingEntry`,
    `confirmAction`, `shareEntry`). Some transitions write a whole flag
    record with one flag set; others overwrite a single flag and keep the
    rest, so "at most one dialog open" holds only along the first kind. */
module Modals {
  import opened Entries

  datatype Surface = Add | Confirm | Share | Export | AddUrl | Menu

  /** The six flags; `exportImport` is the source's `export` flag, renamed
      because `export` is a Dafny keyword. */
  datatype ModalFlags = ModalFlags(add: bool, confirm: bool, share: bool, exportImport: bool,
                                   addUrl: bool, menu: bool)

  const AllClosed := ModalFlags(false, false, false, false, false, false)

  function IsOpen(m: ModalFlags, s: Surface): bool
  {
    match s
    case Add => m.add
    case Confirm => m.confirm
    case Share => m.share
    case Export => m.exportImport
    case AddUrl => m.addUrl
    case Menu => m.menu
  }

  function Bit(b: bool): nat
  {
    if b then 1 else 0
  }

  /** How many dialogs are visible at once. */
  function OpenCount(m: ModalFlags): nat
  {
    Bit(m.add) + Bit(m.confirm) + Bit(m.share) + Bit(m.exportImport) + Bit(m.addUrl) + Bit(m.menu)
  }

  /** A write of a complete flag record with a single flag set: the named
      surface is the one and only visible one. */
  function Only(s: Surface): (m: ModalFlags)
    ensures forall t :: IsOpen(m, t) <==> t == s
    ensures OpenCount(m) == 1
  {
    match s
    case Add => AllClosed.(add := true)
    case Confirm => AllClosed.(confirm := true)
    case Share => AllClosed.(share := true)
    case Export => AllClosed.(exportImport := true)
    case AddUrl => AllClosed.(addUrl := true)
    case Menu => AllClosed.(menu := true)
  }

  /** A spread write, copying the previous record with one flag replaced:
      the named flag takes the value and every other flag keeps its old one. */
  function With(m: ModalFlags, s: Surface, v: bool): (r: ModalFlags)
    ensures IsOpen(r, s) == v
    ensures forall t :: t != s ==> IsOpen(r, t) == IsOpen(m, t)
  {
    match s
    case Add => m.(add := v)
    case Confirm => m.(confirm := v)
    case Share => m.(share := v)
    case Export => m.(exportImport := v)
    case AddUrl => m.(addUrl := v)
    case Menu => m.(menu := v)
  }

  /** A spread write changes the open count by the named flag alone. */
  lemma SpreadCount(m: ModalFlags, s: Surface, v: bool)
    ensures OpenCount(With(m, s, v)) == OpenCount(m) - Bit(IsOpen(m, s)) + Bit(v)
  {
    match s
    case Add =>
    case Confirm =>
    case Share =>
    case Export =>
    case AddUrl =>
    case Menu =>
  }

  /** A spread open adds at most one visible dialog, and a spread close never
      adds one; from the all-closed state a spread open equals the
      whole-record one. */
  lemma SpreadCounts(m: ModalFlags, s: Surface)
    ensures OpenCount(With(m, s, true)) == OpenCount(m) + (if IsOpen(m, s) then 0 else 1)
    ensures OpenCount(With(m, s, false)) == OpenCount(m) - (if IsOpen(m, s) then 1 else 0)
    ensures With(AllClosed, s, true) == Only(s)
  {
    SpreadCount(m, s, true);
    SpreadCount(m, s, false);
    match s
    case Add =>
    case Confirm =>
    case Share =>
    case Export =>
    case AddUrl =>
    case Menu =>
  }

  /** Spread opens do not close other dialogs: after the whole-record open of
      the confirmation dialog, a spread open of the share dialog leaves two
      dialogs visible. */
  lemma SpreadOpenKeepsOthersOpen()
    ensures OpenCount(With(Only(Confirm), Share, true)) == 2
    ensures IsOpen(With(Only(Confirm), Share, true), Confirm)
  {
  }

  /** What confirming a pending action does, passed on to the store. */
  datatype ConfirmOp = DeleteEntry(entryId: string) | DeleteAllEntries(userId: string)

  /** The `confirmAction` payload: message, action and button label. */
  datatype ConfirmRequest = ConfirmRequest(message: string, onConfirm: ConfirmOp, confirmText: string)

  /** The `shareEntry` payload: one entry, or the partial entry that stands for
      the whole collection and carries the collection's share code. */
  datatype ShareTarget =
    | SharedEntry(entry: Entry)
    | SharedCollection(id: string, name: string, category: string, image: string, shareCode: string)

  function CollectionTarget(code: string): ShareTarget
  {
    SharedCollection("collection", "Todas tus tarjetas", "other",
                     "https://i.postimg.cc/GpPsSmmX/4491470.png", code)
  }
}
