/** The client list: row and header checkboxes wired to the selection store, and the
    timezone label of each row. */
module ClientsTable {
  import opened Wrappers
  import opened ClientModel
  import opened ClientSelection

  /** `clientsDetails.map((client) => client.id)`. */
  function RowIds(rows: seq<Client>): seq<int> {
    seq(|rows|, i requires 0 <= i < |rows| => rows[i].id)
  }

  /** The selection after clicking a row checkbox (`handleSelectClient`). */
  function Toggle(selected: seq<int>, id: int): seq<int> {
    if id in selected then Without(selected, id) else selected + [id]
  }

  /** The selection after clicking the header checkbox (`handleSelectAll`): only the
      lengths are compared. */
  function SelectAll(selected: seq<int>, rows: seq<Client>): seq<int> {
    if |selected| == |rows| then [] else RowIds(rows)
  }

  /** `checked={selectedClients.length === clientsDetails.length}`. */
  predicate HeaderChecked(selected: seq<int>, rows: seq<Client>) {
    |selected| == |rows|
  }

  /** `checked={selectedClients.includes(client.id)}`. */
  predicate RowChecked(selected: seq<int>, id: int) {
    id in selected
  }

  /** A toggle flips the clicked row's checkbox and no other. */
  lemma ToggleFlipsOneRow(selected: seq<int>, id: int, other: int)
    requires other != id
    ensures RowChecked(Toggle(selected, id), id) == !RowChecked(selected, id)
    ensures RowChecked(Toggle(selected, id), other) == RowChecked(selected, other)
  {
    if id in selected {
      WithoutCounts(selected, id);
      assert other in Toggle(selected, id) <==> multiset(Toggle(selected, id))[other] > 0;
    }
  }

  /** Toggling an unselected id twice gives back exactly the original list. */
  lemma ToggleTwiceRestores(selected: seq<int>, id: int)
    requires id !in selected
    ensures Toggle(Toggle(selected, id), id) == selected
  {
    var once := selected + [id];
    assert id in once;
    WithoutConcat(selected, [id], id);
    WithoutAbsent(selected, id);
    assert Without([id], id) == [];
  }

  /** When the lengths differ, select-all selects every row, in table order. */
  lemma SelectAllChecksEveryRow(selected: seq<int>, rows: seq<Client>)
    requires |selected| != |rows|
    ensures SelectAll(selected, rows) == RowIds(rows)
    ensures HeaderChecked(SelectAll(selected, rows), rows)
    ensures forall i :: 0 <= i < |rows| ==> RowChecked(SelectAll(selected, rows), rows[i].id)
  {
    var ids := RowIds(rows);
    forall i | 0 <= i < |rows| ensures rows[i].id in ids {
      assert ids[i] == rows[i].id;
    }
  }

  /** From an empty selection of a non-empty table, select-all twice comes back to empty. */
  lemma SelectAllTwiceFromEmpty(rows: seq<Client>)
    requires |rows| > 0
    ensures SelectAll([], rows) == RowIds(rows)
    ensures SelectAll(SelectAll([], rows), rows) == []
  {
  }

  /** The header test is on lengths, not sets: a list with a duplicate id checks the header
      although a row is unchecked, and select-all then clears instead of completing it. */
  lemma HeaderCheckedWithoutEveryRow(a: Client, b: Client)
    requires a.id != b.id
    ensures var selected := [a.id, a.id];
            HeaderChecked(selected, [a, b]) && !RowChecked(selected, b.id) &&
            SelectAll(selected, [a, b]) == []
  {
  }

  /** `handleSelectClient`. */
  method HandleSelectClient(store: ClientSelectionStore, id: int)
    modifies store
    ensures store.selectedClients == Toggle(old(store.selectedClients), id)
  {
    if id in store.selectedClients {
      store.DeselectClient(id);
    } else {
      store.SelectClient(id);
    }
  }

  /** `handleSelectAll`. */
  method HandleSelectAll(store: ClientSelectionStore, rows: seq<Client>)
    modifies store
    ensures store.selectedClients == SelectAll(old(store.selectedClients), rows)
  {
    if |store.selectedClients| == |rows| {
      store.DeselectAllClients();
    } else {
      store.SelectAllClients(RowIds(rows));
    }
  }

  /** What the `Intl.DateTimeFormat` lookup gave: it threw, it had no `timeZoneName` part,
      or it had one with this value. */
  datatype ZoneLookup = Threw | NoZonePart | ZonePart(value: string)

  const InvalidTimezone := "Invalid timezone"

  /** `formatGMT`: empty for a missing or empty timezone, otherwise the short zone name,
      with the fallback label when the lookup fails or yields nothing. */
  function FormatGmt(timezone: Option<string>, lookup: ZoneLookup): (shown: string)
    ensures shown == "" <==> timezone.None? || timezone.value == ""
    ensures shown != "" ==> shown == InvalidTimezone || (lookup.ZonePart? && shown == lookup.value)
    ensures timezone.Some? && timezone.value != "" && !lookup.ZonePart? ==> shown == InvalidTimezone
    ensures timezone.Some? && timezone.value != "" && lookup.ZonePart? ==>
              shown == (if lookup.value != "" then lookup.value else InvalidTimezone)
  {
    if timezone.None? || timezone.value == "" then ""
    else match lookup
      case ZonePart(v) => if v != "" then v else InvalidTimezone
      case _ => InvalidTimezone
  }
}
