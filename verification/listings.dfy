/**
 * How the importer reads the server's listings: what a listing rendered by
 * the map server reads back to, and which odd shapes the two parsers treat as
 * an empty collection, which ones they let raise, and where the two differ.
 */
module Listings {
  import opened PyJson
  import opened Rest
  import opened GeoServer
  import opened Reconcile

  /** What parsing a rendered datastore listing comes down to. */
  lemma StoreListingParses(stores: seq<Store>)
    ensures ListedStores(Doc(StoreListing(stores))) ==
              if stores == [] then Value([]) else EachName(NameEntries(StoreNames(stores)))
  {
  }

  /** What parsing a rendered feature type listing comes down to. */
  lemma LayerListingParses(layers: seq<LayerPayload>)
    ensures ListedLayers(Doc(LayerListing(layers))) ==
              if layers == [] then Value([]) else EachName(NameEntries(LayerNames(layers)))
  {
  }

  /**
   * A datastore listing reads back to the names of exactly the datastores the
   * workspace holds, including the empty-string listing of an empty workspace.
   */
  lemma StoreListingReadsBack(stores: seq<Store>)
    ensures ListedStores(Doc(StoreListing(stores))).Value?
    ensures forall n :: JStr(n) in ListedStores(Doc(StoreListing(stores))).v <==> StoreIndex(stores, n) < |stores|
  {
    StoreListingParses(stores);
    if stores != [] {
      var names := StoreNames(stores);
      NameEntriesReadBack(names);
      forall n ensures JStr(n) in EachName(NameEntries(names)).v <==> StoreIndex(stores, n) < |stores| {
        StoreIndexFindsListed(stores, n);
      }
    }
  }

  /** A feature type listing reads back to the names of exactly the store's feature types. */
  lemma LayerListingReadsBack(layers: seq<LayerPayload>)
    ensures ListedLayers(Doc(LayerListing(layers))).Value?
    ensures forall n :: JStr(n) in ListedLayers(Doc(LayerListing(layers))).v <==> LayerIndex(layers, n) < |layers|
  {
    LayerListingParses(layers);
    if layers != [] {
      var names := LayerNames(layers);
      NameEntriesReadBack(names);
      forall n ensures JStr(n) in EachName(NameEntries(names)).v <==> LayerIndex(layers, n) < |layers| {
        LayerIndexFindsListed(layers, n);
      }
    }
  }

  /**
   * The datastore parser reads a `dataStores` that is not an object (the
   * server's `""` for none, or anything else) as no datastores, but a
   * document without `dataStores`, or a `dataStores` without `dataStore`,
   * raises KeyError, which it does not catch. A body that is not JSON raises
   * a decoding error.
   */
  lemma StoreListingShapes(fields: map<string, Json>)
    ensures "dataStores" in fields && !fields["dataStores"].JObj? ==>
              ListedStores(Doc(JObj(fields))) == Value([])
    ensures "dataStores" !in fields ==> ListedStores(Doc(JObj(fields))) == Raise(KeyError)
    ensures "dataStores" in fields && fields["dataStores"].JObj? && "dataStore" !in fields["dataStores"].fields ==>
              ListedStores(Doc(JObj(fields))) == Raise(KeyError)
    ensures ListedStores(Text) == Raise(DecodeError)
  {
  }

  /**
   * The datastore parser reads a listed item without a `name` as an error it
   * does not catch, and an item that is not an object as no datastores.
   */
  lemma StoreListingItems(item: Json)
    ensures var doc := Doc(JObj(map["dataStores" := JObj(map["dataStore" := JArr([item])])]));
            && (item.JObj? && "name" !in item.fields ==> ListedStores(doc) == Raise(KeyError))
            && (item.JObj? && "name" in item.fields ==> ListedStores(doc) == Value([item.fields["name"]]))
            && (!item.JObj? ==> ListedStores(doc) == Value([]))
  {
    assert [item][1..] == [];
    assert EachName([]) == Value([]);
    if item.JObj? && "name" in item.fields {
      assert Subscript(item, "name") == Value(item.fields["name"]);
      assert EachName([item]) == Value([item.fields["name"]] + []);
      assert [item.fields["name"]] + [] == [item.fields["name"]];
    }
  }

  /**
   * The feature type parser defaults a missing `featureTypes` or
   * `featureType`, and reads a `featureTypes` that is not an object (such as
   * the server's `""`) as no feature types. It catches only AttributeError,
   * so a `featureType` that is a non-empty string or a number raises
   * TypeError to the caller, where the datastore parser would have read
   * it as none.
   */
  lemma LayerListingShapes(fields: map<string, Json>)
    ensures "featureTypes" !in fields ==> ListedLayers(Doc(JObj(fields))) == Value([])
    ensures "featureTypes" in fields && !fields["featureTypes"].JObj? ==> ListedLayers(Doc(JObj(fields))) == Value([])
    ensures "featureTypes" in fields && fields["featureTypes"].JObj? && "featureType" !in fields["featureTypes"].fields ==>
              ListedLayers(Doc(JObj(fields))) == Value([])
    ensures ListedLayers(Text) == Raise(DecodeError)
  {
  }

  /** Where the two parsers part: a collection written as a number. */
  lemma NumberCollectionDiffers(n: int)
    ensures ListedLayers(Doc(JObj(map["featureTypes" := JObj(map["featureType" := JNum(n)])]))) == Raise(TypeError)
    ensures ListedStores(Doc(JObj(map["dataStores" := JObj(map["dataStore" := JNum(n)])]))) == Value([])
  {
  }

  /** A top-level document that is not an object reads as an empty collection for both parsers. */
  lemma NonObjectDocumentIsEmpty(j: Json)
    requires !j.JObj?
    ensures ListedStores(Doc(j)) == Value([])
    ensures ListedLayers(Doc(j)) == Value([])
  {
  }
}
