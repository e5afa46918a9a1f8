/** The list of checked client ids (`useClientSelectionStore`). It is a list, not a set:
    selecting appends without looking for an earlier copy. */
module ClientSelection {

  /** `selected.filter((clientId) => clientId !== id)`. */
  function Without(s: seq<int>, id: int): (r: seq<int>)
    ensures id !in r
    ensures |r| <= |s|
  {
    if |s| == 0 then []
    else (if s[0] == id then [] else [s[0]]) + Without(s[1..], id)
  }

  /** Filtering drops every copy of `id` and keeps every other element as often as it was there. */
  lemma {:induction false} WithoutCounts(s: seq<int>, id: int)
    ensures multiset(Without(s, id)) == multiset(s)[id := 0]
  {
    if |s| > 0 {
      WithoutCounts(s[1..], id);
      assert s == [s[0]] + s[1..];
    }
  }

  /** Filtering distributes over concatenation, so the survivors keep their relative order. */
  lemma {:induction false} WithoutConcat(a: seq<int>, b: seq<int>, id: int)
    ensures Without(a + b, id) == Without(a, id) + Without(b, id)
  {
    if |a| > 0 {
      WithoutConcat(a[1..], b, id);
      assert (a + b)[1..] == a[1..] + b;
    } else {
      assert a + b == b;
    }
  }

  /** Deselecting an id that is not selected leaves the list as it was. */
  lemma {:induction false} WithoutAbsent(s: seq<int>, id: int)
    requires id !in s
    ensures Without(s, id) == s
  {
    if |s| > 0 {
      assert id !in s[1..];
      WithoutAbsent(s[1..], id);
      assert s == [s[0]] + s[1..];
    }
  }

  class ClientSelectionStore {
    var selectedClients: seq<int>

    /** The selection starts empty. */
    constructor ()
      ensures selectedClients == []
    {
      selectedClients := [];
    }

    /** `[...state.selectedClients, id]`: appended at the end even if already present. */
    method SelectClient(id: int)
      modifies this
      ensures selectedClients == old(selectedClients) + [id]
    {
      selectedClients := selectedClients + [id];
    }

    method DeselectClient(id: int)
      modifies this
      ensures selectedClients == Without(old(selectedClients), id)
      ensures id !in selectedClients
      ensures multiset(selectedClients) == multiset(old(selectedClients))[id := 0]
    {
      WithoutCounts(selectedClients, id);
      selectedClients := Without(selectedClients, id);
    }

    method SelectAllClients(ids: seq<int>)
      modifies this
      ensures selectedClients == ids
    {
      selectedClients := ids;
    }

    method DeselectAllClients()
      modifies this
      ensures selectedClients == []
    {
      selectedClients := [];
    }
  }
}
