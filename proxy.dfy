/** The collection proxy of main.go (`proxyRequest`): fetch a collection's
    records from the record store, strip the two internal bookkeeping fields
    from every item, and send the whole envelope back. */
module Proxy {
  import opened Wrappers
  import opened Json
  import opened Http

  const InternalKeys: set<string> := {"collectionId", "collectionName"}

  const CollectionsBase := RecordStoreBase + "/api/collections/"
  const RecordsSuffix := "/records"

  /** The record store's list endpoint for a collection: the collection's
      name sits verbatim between the fixed base and `/records`, so it can be
      read back from the URL. */
  function CollectionUrl(collection: string): (u: string)
    ensures |u| == |CollectionsBase| + |collection| + |RecordsSuffix|
    ensures CollectionsBase <= u
    ensures u[|CollectionsBase|..|u| - |RecordsSuffix|] == collection
    ensures u[|u| - |RecordsSuffix|..] == RecordsSuffix
  {
    var u := CollectionsBase + collection + RecordsSuffix;
    assert u[|CollectionsBase|..|u| - |RecordsSuffix|] == collection;
    assert u[|u| - |RecordsSuffix|..] == RecordsSuffix;
    u
  }

  /** One item with the internal fields removed; an item that is not an
      object is left as it is. */
  function StripItem(item: Json): (r: Json)
    ensures r.JObj? <==> item.JObj?
    ensures r.JObj? ==> r.fields.Keys == item.fields.Keys - InternalKeys
    ensures r.JObj? ==> forall k :: k in r.fields ==> r.fields[k] == item.fields[k]
    ensures !item.JObj? ==> r == item
  {
    if item.JObj? then JObj(item.fields - InternalKeys) else item
  }

  /** Every item of a list stripped, in order. */
  function StrippedItems(items: seq<Json>): (r: seq<Json>)
    ensures |r| == |items|
    ensures forall i :: 0 <= i < |items| ==> r[i] == StripItem(items[i])
  {
    if items == [] then [] else [StripItem(items[0])] + StrippedItems(items[1..])
  }

  /** The envelope after sanitizing: when `items` is an array, every item of
      it is stripped; any other envelope, a nil map included, is unchanged. */
  function Sanitize(envelope: Json): (r: Json)
    ensures r.JObj? <==> envelope.JObj?
    ensures ItemsOf(envelope).Some? ==> ItemsOf(r) == Some(StrippedItems(ItemsOf(envelope).value))
    ensures ItemsOf(envelope).None? ==> r == envelope
  {
    match ItemsOf(envelope)
    case Some(items) => JObj(envelope.fields["items" := JArr(StrippedItems(items))])
    case None => envelope
  }

  /** No object in the sanitized `items` array has an internal field. */
  lemma SanitizeRemovesInternalKeys(envelope: Json, i: nat, key: string)
    requires ItemsOf(Sanitize(envelope)).Some?
    requires i < |ItemsOf(Sanitize(envelope)).value|
    requires ItemsOf(Sanitize(envelope)).value[i].JObj?
    requires key in InternalKeys
    ensures key !in ItemsOf(Sanitize(envelope)).value[i].fields
  {
  }

  /** The two maps agree on every key other than the internal ones. */
  ghost predicate SameExceptInternal(before: map<string, Json>, after: map<string, Json>) {
    forall k :: k !in InternalKeys ==>
      && (k in after <==> k in before)
      && (k in before ==> after[k] == before[k])
  }

  /** Sanitizing keeps the items array's length and order, every non-object
      item as it was, and every other field of every object item. */
  lemma SanitizeKeepsItems(envelope: Json)
    requires ItemsOf(envelope).Some?
    ensures ItemsOf(Sanitize(envelope)).Some?
    ensures |ItemsOf(Sanitize(envelope)).value| == |ItemsOf(envelope).value|
    ensures forall i :: 0 <= i < |ItemsOf(envelope).value| ==>
      var before, after := ItemsOf(envelope).value[i], ItemsOf(Sanitize(envelope)).value[i];
      && (!before.JObj? ==> after == before)
      && (before.JObj? ==> after.JObj? && SameExceptInternal(before.fields, after.fields))
  {
  }

  /** Sanitizing keeps the envelope's kind and every top-level key, and
      changes no top-level value other than `items`. */
  lemma SanitizeKeepsEnvelope(envelope: Json)
    ensures Sanitize(envelope).JObj? <==> envelope.JObj?
    ensures !envelope.JObj? ==> Sanitize(envelope) == envelope
    ensures envelope.JObj? ==> Sanitize(envelope).fields.Keys == envelope.fields.Keys
    ensures envelope.JObj? ==> forall k :: k in envelope.fields && k != "items" ==>
      Sanitize(envelope).fields[k] == envelope.fields[k]
    ensures ItemsOf(envelope).None? ==> Sanitize(envelope) == envelope
  {
  }

  /** Stripping an item twice is stripping it once. */
  lemma StripItemIdempotent(item: Json)
    ensures StripItem(StripItem(item)) == StripItem(item)
  {
    if item.JObj? {
      assert (item.fields - InternalKeys) - InternalKeys == item.fields - InternalKeys;
    }
  }

  /** Sanitizing twice is sanitizing once. */
  lemma SanitizeIdempotent(envelope: Json)
    ensures Sanitize(Sanitize(envelope)) == Sanitize(envelope)
  {
    if ItemsOf(envelope).Some? {
      var items := ItemsOf(envelope).value;
      var once := StrippedItems(items);
      var twice := StrippedItems(once);
      forall i | 0 <= i < |items| ensures twice[i] == once[i] {
        StripItemIdempotent(items[i]);
      }
      assert twice == once;
      assert envelope.fields["items" := JArr(once)]["items" := JArr(twice)]
          == envelope.fields["items" := JArr(once)];
    }
  }

  /** Strip the items in place, one at a time: for an object item delete
      `collectionId`, then `collectionName`. In Go each item map is shared
      with the decoded envelope, so this edits the envelope itself. */
  method StripInPlace(items: array<Json>)
    modifies items
    ensures items[..] == StrippedItems(old(items[..]))
  {
    var i := 0;
    while i < items.Length
      invariant 0 <= i <= items.Length
      invariant forall k :: 0 <= k < i ==> items[k] == StripItem(old(items[k]))
      invariant forall k :: i <= k < items.Length ==> items[k] == old(items[k])
    {
      if items[i].JObj? {
        var fields := items[i].fields;
        fields := fields - {"collectionId"};
        fields := fields - {"collectionName"};
        assert fields == items[i].fields - InternalKeys;
        items[i] := JObj(fields);
      }
      i := i + 1;
    }
  }

  /** `proxyRequest(collection)`: the URL requested and the response sent.
      The upstream status is never looked at: whatever it is, a body that
      decodes into a map is sanitized and sent with 200. */
  method ProxyRequest(collection: string, reply: Upstream) returns (url: string, response: Response)
    ensures url == CollectionUrl(collection)
    ensures reply.Unreachable? ==>
      response == Error("Failed to connect to PocketBase", StatusInternalServerError)
    ensures reply.Reply? && reply.payload.Unreadable? ==>
      response == Error("Failed to read response", StatusInternalServerError)
    ensures reply.Reply? && reply.payload.Body? && !ReplyDecodesAsMap(reply.payload) ==>
      response == Error("Failed to parse response", StatusInternalServerError)
    ensures reply.Reply? && ReplyDecodesAsMap(reply.payload) ==>
      response == Response(StatusOK, JsonContent(Sanitize(reply.payload.decoded.value)))
  {
    url := CollectionUrl(collection);
    if reply.Unreachable? {
      return url, Error("Failed to connect to PocketBase", StatusInternalServerError);
    }
    if reply.payload.Unreadable? {
      return url, Error("Failed to read response", StatusInternalServerError);
    }
    if !ReplyDecodesAsMap(reply.payload) {
      return url, Error("Failed to parse response", StatusInternalServerError);
    }
    var envelope := reply.payload.decoded.value;
    if ItemsOf(envelope).Some? {
      var elems := ItemsOf(envelope).value;
      var items := new Json[|elems|](i requires 0 <= i < |elems| => elems[i]);
      assert items[..] == elems;
      StripInPlace(items);
      envelope := JObj(envelope.fields["items" := JArr(items[..])]);
    }
    response := Response(StatusOK, JsonContent(envelope));
  }
}
