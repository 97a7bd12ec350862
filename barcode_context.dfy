/**
 * The item store and the scan slot: the saved gift ideas, each tagged with
 * the id of a profile, held by the barcode provider as React state and
 * mirrored to local storage under 'barcodeItems'; and the one pending
 * barcode a scan leaves for the save step.
 */
module BarcodeContext {
  import opened Wrappers
  import opened Sequences
  import ProfileContext

  /** A saved product, tagged with the id of the profile it is for. */
  datatype BarcodeItem = BarcodeItem(
    id: string,
    profileId: string,
    barcode: string,
    productName: string,
    productImage: Option<string>,
    description: Option<string>,
    price: Option<string>,
    retailer: Option<string>,
    dateAdded: string)

  /** What a caller hands to `addItem`: an item without `id` and `dateAdded`. */
  datatype ItemDraft = ItemDraft(
    profileId: string,
    barcode: string,
    productName: string,
    productImage: Option<string>,
    description: Option<string>,
    price: Option<string>,
    retailer: Option<string>)

  /** The draft part of an item: the item with `id` and `dateAdded` left out. */
  function DraftOf(item: BarcodeItem): ItemDraft {
    ItemDraft(item.profileId, item.barcode, item.productName,
              item.productImage, item.description, item.price, item.retailer)
  }

  /** `{ ...draft, id, dateAdded }`: the stored item carries the draft unchanged. */
  function Stamp(draft: ItemDraft, id: string, dateAdded: string): (r: BarcodeItem)
    ensures DraftOf(r) == draft
    ensures r.id == id && r.dateAdded == dateAdded
  {
    BarcodeItem(id, draft.profileId, draft.barcode, draft.productName,
                draft.productImage, draft.description, draft.price, draft.retailer,
                dateAdded)
  }

  /** The two demonstration items seeded when storage holds no list; both are stamped `now`. */
  function DemoItems(now: string): (r: seq<BarcodeItem>)
    ensures |r| == 2 && r[0].id == "1" && r[1].id == "2"
    ensures r[0].profileId == "1" && r[1].profileId == "2"
  {
    [ BarcodeItem("1", "1", "9780735211292", "Atomic Habits",
                  Some("https://m.media-amazon.com/images/I/81wgcld4wxL._AC_UF1000,1000_QL80_.jpg"),
                  Some("An Easy & Proven Way to Build Good Habits & Break Bad Ones"),
                  Some("$11.98"), Some("Amazon"), now),
      BarcodeItem("2", "2", "5060624582615", "LEGO Star Wars Set",
                  Some("https://m.media-amazon.com/images/I/81wId1U0gnL._AC_SL1500_.jpg"),
                  Some("Building set with popular Star Wars character"),
                  Some("$19.99"), Some("Target"), now) ]
  }

  /**
   * The two seeds agree: demo item ids are distinct, and every demo item
   * names a profile of the default profile seed, whatever the timestamps.
   */
  lemma DemoItemsReferenceDefaultProfiles(itemsAt: string, profilesAt: string)
    ensures var items := DemoItems(itemsAt);
      forall i, j :: 0 <= i < j < |items| ==> items[i].id != items[j].id
    ensures var items, ps := DemoItems(itemsAt), ProfileContext.DefaultProfiles(profilesAt);
      forall i :: 0 <= i < |items| ==>
        exists k :: 0 <= k < |ps| && ps[k].id == items[i].profileId
  {
    var items, ps := DemoItems(itemsAt), ProfileContext.DefaultProfiles(profilesAt);
    assert ps[0].id == items[0].profileId;
    assert ps[1].id == items[1].profileId;
  }

  /** The list `deleteItem(id)` computes: the items whose id differs, in their order. */
  function WithoutItem(items: seq<BarcodeItem>, id: string): (r: seq<BarcodeItem>)
    ensures forall i :: 0 <= i < |r| ==> r[i].id != id && r[i] in items
    ensures forall i :: 0 <= i < |items| && items[i].id != id ==> items[i] in r
    ensures forall x :: multiset(r)[x] == if x.id != id then multiset(items)[x] else 0
    ensures IsSubsequence(r, items)
    ensures (forall i :: 0 <= i < |items| ==> items[i].id != id) ==> r == items
  {
    var keep := (it: BarcodeItem) => it.id != id;
    FilterIsSubsequence(items, keep);
    forall x {
      FilterMultiplicity(items, keep, x);
    }
    if forall i :: 0 <= i < |items| ==> items[i].id != id then
      FilterKeepsAll(items, keep);
      Filter(items, keep)
    else
      Filter(items, keep)
  }

  /** Deleting an item twice is deleting it once. */
  lemma WithoutItemIdempotent(items: seq<BarcodeItem>, id: string)
    ensures WithoutItem(WithoutItem(items, id), id) == WithoutItem(items, id)
  {
  }

  /**
   * The list `getItemsByProfileId(profileId)` returns: exactly the items
   * tagged with that profile, every copy of each, in their order in `items`.
   */
  function ItemsOfProfile(items: seq<BarcodeItem>, profileId: string): (r: seq<BarcodeItem>)
    ensures forall i :: 0 <= i < |r| ==> r[i].profileId == profileId && r[i] in items
    ensures forall i :: 0 <= i < |items| && items[i].profileId == profileId ==> items[i] in r
    ensures forall x :: multiset(r)[x] == if x.profileId == profileId then multiset(items)[x] else 0
    ensures IsSubsequence(r, items)
    ensures (forall i :: 0 <= i < |items| ==> items[i].profileId != profileId) ==> r == []
  {
    var keep := (it: BarcodeItem) => it.profileId == profileId;
    FilterIsSubsequence(items, keep);
    forall x {
      FilterMultiplicity(items, keep, x);
    }
    Filter(items, keep)
  }

  /**
   * Adding an item shows it at the end of its own profile's list and
   * leaves every other profile's list as it was.
   */
  lemma {:induction false} AddedItemJoinsItsProfile(items: seq<BarcodeItem>, item: BarcodeItem, profileId: string)
    ensures ItemsOfProfile(items + [item], profileId) ==
      ItemsOfProfile(items, profileId) + (if item.profileId == profileId then [item] else [])
  {
    FilterAppend(items, item, (it: BarcodeItem) => it.profileId == profileId);
  }

  /** Deleting an item removes that id, and only that id, from every profile's list. */
  lemma {:induction false} DeletedItemLeavesItsProfile(items: seq<BarcodeItem>, id: string, profileId: string)
    ensures ItemsOfProfile(WithoutItem(items, id), profileId) ==
      WithoutItem(ItemsOfProfile(items, profileId), id)
  {
    FilterCommutes(items, (it: BarcodeItem) => it.id != id, (it: BarcodeItem) => it.profileId == profileId);
  }

  /** Adding an item under an id no item has, then deleting that id, gives back the list. */
  lemma {:induction false} AddThenDeleteItem(items: seq<BarcodeItem>, draft: ItemDraft, id: string, dateAdded: string)
    requires forall i :: 0 <= i < |items| ==> items[i].id != id
    ensures WithoutItem(items + [Stamp(draft, id, dateAdded)], id) == items
  {
    var keep := (it: BarcodeItem) => it.id != id;
    FilterAppend(items, Stamp(draft, id, dateAdded), keep);
    FilterKeepsAll(items, keep);
  }

  /**
   * The barcode provider. `items` is the React state and `persisted` what
   * local storage holds under 'barcodeItems' (JSON left out); the write-back
   * effect keeps them equal once loading has finished. `currentBarcode` is
   * the scan slot: `null` (None) or the one barcode awaiting a profile.
   */
  class BarcodeProvider {
    var items: seq<BarcodeItem>
    var loading: bool
    var currentBarcode: Option<string>
    ghost var persisted: Option<seq<BarcodeItem>>

    ghost predicate Valid()
      reads this
    {
      !loading ==> persisted == Some(items)
    }

    /** The provider as first rendered, over a storage holding `storage` (None: no entry). */
    constructor (ghost storage: Option<seq<BarcodeItem>>)
      ensures Valid()
      ensures items == [] && loading && currentBarcode == None && persisted == storage
    {
      items := [];
      loading := true;
      currentBarcode := None;
      persisted := storage;
    }

    /** The load effect: the stored list if there is one, otherwise the demo items, which are written to storage. */
    method Load(stored: Option<seq<BarcodeItem>>, now: string)
      requires stored == persisted
      modifies this
      ensures Valid() && !loading && currentBarcode == old(currentBarcode)
      ensures items == if stored.Some? then stored.value else DemoItems(now)
    {
      if stored.Some? {
        items := stored.value;
      } else {
        items := DemoItems(now);
        persisted := Some(items);
      }
      loading := false;
    }

    /**
     * `addItem`: appends the draft stamped with `id` and `dateAdded` (the
     * clock readings the source takes). It returns nothing, so a caller
     * never receives the created item.
     */
    method AddItem(draft: ItemDraft, id: string, dateAdded: string)
      requires Valid()
      modifies this
      ensures Valid() && loading == old(loading) && currentBarcode == old(currentBarcode)
      ensures items == old(items) + [Stamp(draft, id, dateAdded)]
      ensures loading ==> persisted == old(persisted)
    {
      items := items + [Stamp(draft, id, dateAdded)];
      if !loading {
        persisted := Some(items);
      }
    }

    /** `deleteItem`: every item with that id goes. */
    method DeleteItem(id: string)
      requires Valid()
      modifies this
      ensures Valid() && loading == old(loading) && currentBarcode == old(currentBarcode)
      ensures items == WithoutItem(old(items), id)
      ensures loading ==> persisted == old(persisted)
    {
      items := WithoutItem(items, id);
      if !loading {
        persisted := Some(items);
      }
    }

    /** `setCurrentBarcode`: overwrites the slot; the last value set wins and `null` clears it. */
    method SetCurrentBarcode(barcode: Option<string>)
      modifies this`currentBarcode
      ensures currentBarcode == barcode
    {
      currentBarcode := barcode;
    }

    /** `getItemsByProfileId`: a read of the current list. */
    function GetItemsByProfileId(profileId: string): (r: seq<BarcodeItem>)
      reads this
      ensures r == ItemsOfProfile(items, profileId)
    {
      ItemsOfProfile(items, profileId)
    }

    /** `getItemById`: the first item with that id, if any; a read that changes nothing. */
    function GetItemById(id: string): (r: Option<BarcodeItem>)
      reads this
      ensures r.None? <==> forall i :: 0 <= i < |items| ==> items[i].id != id
      ensures r.Some? ==>
        exists i :: 0 <= i < |items| && items[i] == r.value && r.value.id == id &&
          forall j :: 0 <= j < i ==> items[j].id != id
    {
      Find(items, (it: BarcodeItem) => it.id == id)
    }
  }

  /** Two scans in a row: the slot holds the second barcode, not both. */
  method LastScanWins(store: BarcodeProvider, first: string, second: string)
    modifies store`currentBarcode
    ensures store.currentBarcode == Some(second)
  {
    store.SetCurrentBarcode(Some(first));
    store.SetCurrentBarcode(Some(second));
  }
}
