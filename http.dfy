/** What a form hands to `fetch`: a verb, a resource path under the backend host, the
    record id that ends the path, and a body. Responses are inputs to the model. */
module Http {
  import opened Wrappers

  datatype Verb = GET | POST | PATCH | DELETE

  /** A browser `File`, as far as the forms look at it. */
  datatype FileInfo = FileInfo(name: string, size: nat, mimeType: string)

  datatype Json = JString(s: string) | JBool(b: bool) | JNull | JStrings(items: seq<string>)

  /** A `FormData` value: `append` turns anything that is not a file into text. */
  datatype Part = TextPart(text: string) | FilePart(file: FileInfo)

  datatype Body =
    | NoBody
    | JsonObject(members: seq<(string, Json)>)
    | FormData(parts: seq<(string, Part)>)

  /** `${BACKEND_HOST}{resource}/{id}` with the given verb and body. */
  datatype Request = Request(verb: Verb, resource: string, id: int, body: Body)

  /** How a request came back: `response.ok` with its decoded data, not ok with the
      backend's `message`, or thrown before any response. */
  datatype Response<T> = Ok(data: T) | NotOk(message: string) | Failed

  /** `FormData.get(key)` and JSON member lookup: the value of the first entry with `key`. */
  function Get<V>(entries: seq<(string, V)>, key: string): (r: Option<V>)
    ensures r.None? <==> forall i :: 0 <= i < |entries| ==> entries[i].0 != key
    ensures r.Some? ==> exists i :: 0 <= i < |entries| && entries[i] == (key, r.value) &&
                                    forall j :: 0 <= j < i ==> entries[j].0 != key
  {
    if |entries| == 0 then None
    else if entries[0].0 == key then Some(entries[0].1)
    else
      var r := Get(entries[1..], key);
      assert forall i :: 1 <= i < |entries| ==> entries[i] == entries[1..][i - 1];
      r
  }

  /** The first entry with a key is what `Get` finds for that key. */
  lemma GetFirst<V>(entries: seq<(string, V)>, i: nat)
    requires i < |entries|
    requires forall j :: 0 <= j < i ==> entries[j].0 != entries[i].0
    ensures Get(entries, entries[i].0) == Some(entries[i].1)
  {
  }

  /** An entry whose key no earlier entry carries is what `Get` finds for that key. */
  lemma LookupAt<V>(entries: seq<(string, V)>, keys: seq<string>, k: nat)
    requires KeysOf(entries) == keys && k < |keys|
    requires forall j :: 0 <= j < k ==> keys[j] != keys[k]
    ensures Get(entries, keys[k]) == Some(entries[k].1)
  {
    forall j | 0 <= j < k ensures entries[j].0 != entries[k].0 {
      assert KeysOf(entries)[j] == keys[j];
    }
    GetFirst(entries, k);
  }

  function KeysOf<V>(entries: seq<(string, V)>): (keys: seq<string>)
    ensures |keys| == |entries| && forall i :: 0 <= i < |entries| ==> keys[i] == entries[i].0
  {
    seq(|entries|, i requires 0 <= i < |entries| => entries[i].0)
  }
}
