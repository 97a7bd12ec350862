/**
 * The profile details page: shows one profile's wish list, renames the
 * profile, deletes it, and deletes single items.
 */
module ProfileDetails {
  import opened Wrappers
  import opened Text
  import opened ProfileContext
  import opened BarcodeContext

  /**
   * `handleSaveName`'s guard: rename only to a name that is not all white
   * space and differs from the current one.
   */
  function ShouldRename(newName: string, currentName: string): (r: bool)
    ensures r <==>
      (exists i :: 0 <= i < |newName| && !IsWhiteSpace(newName[i])) && newName != currentName
  {
    TrimEmptyIff(newName);
    Trim(newName) != "" && newName != currentName
  }

  /** Saving the name the editor was opened with never renames. */
  lemma UneditedNameNeverRenames(name: string)
    ensures !ShouldRename(name, name)
  {
  }

  /**
   * The page's state: the route parameter `id`, the name editor (`isEditingName`,
   * `newName`), the delete dialog flag, and the two stores it reads.
   */
  class Page {
    const id: Option<string>
    const profiles: ProfileProvider
    const barcodes: BarcodeProvider
    var isEditingName: bool
    var newName: string
    var isDeleteDialogOpen: bool

    constructor (id: Option<string>, profiles: ProfileProvider, barcodes: BarcodeProvider)
      ensures this.id == id && this.profiles == profiles && this.barcodes == barcodes
      ensures !isEditingName && newName == "" && !isDeleteDialogOpen
    {
      this.id := id;
      this.profiles := profiles;
      this.barcodes := barcodes;
      isEditingName := false;
      newName := "";
      isDeleteDialogOpen := false;
    }

    /**
     * The profile shown: the first profile whose id is the route's, when
     * the route has a (non-empty) id; otherwise the page shows "not found".
     */
    function CurrentProfile(): (r: Option<Profile>)
      reads profiles
      ensures r.Some? ==> Truthy(id) && r.value.id == id.value && r.value in profiles.profiles
      ensures Truthy(id) ==> r == profiles.GetProfileById(id.value)
      ensures r.None? <==>
        !Truthy(id) || forall i :: 0 <= i < |profiles.profiles| ==> profiles.profiles[i].id != id.value
    {
      if Truthy(id) then profiles.GetProfileById(id.value) else None
    }

    /** The items shown: exactly those tagged with the route's id, in store order. */
    function Items(): (r: seq<BarcodeItem>)
      reads barcodes
      ensures forall i :: 0 <= i < |r| ==> Truthy(id) && r[i].profileId == id.value && r[i] in barcodes.items
      ensures Truthy(id) ==>
        forall i :: 0 <= i < |barcodes.items| && barcodes.items[i].profileId == id.value ==> barcodes.items[i] in r
      ensures Truthy(id) ==> r == ItemsOfProfile(barcodes.items, id.value)
      ensures !Truthy(id) ==> r == []
    {
      if Truthy(id) then barcodes.GetItemsByProfileId(id.value) else []
    }

    /** Whether the page takes its not-found branch, where none of the handlers below exist. */
    predicate NotFound()
      reads profiles
      ensures NotFound() <==>
        !Truthy(id) || forall i :: 0 <= i < |profiles.profiles| ==> profiles.profiles[i].id != id.value
    {
      CurrentProfile().None?
    }

    /**
     * `handleDeleteProfile`: deletes the profile and nothing else. Its items
     * stay in the item store and still list under its id.
     */
    method HandleDeleteProfile()
      requires !NotFound() && profiles.Valid()
      modifies profiles
      ensures profiles.Valid() && profiles.loading == old(profiles.loading)
      ensures profiles.profiles == WithoutProfile(old(profiles.profiles), id.value)
      ensures profiles.loading ==> profiles.persisted == old(profiles.persisted)
      ensures barcodes.items == old(barcodes.items) && Items() == old(Items())
    {
      if Truthy(id) {
        profiles.DeleteProfile(id.value);
      }
    }

    /** `handleStartEditName`: opens the editor on the current name. */
    method HandleStartEditName()
      requires !NotFound()
      modifies this`newName, this`isEditingName
      ensures newName == CurrentProfile().value.name && isEditingName
    {
      newName := CurrentProfile().value.name;
      isEditingName := true;
    }

    /** The editor's change handler. */
    method SetNewName(value: string)
      modifies this`newName
      ensures newName == value
    {
      newName := value;
    }

    /**
     * `handleSaveName`: renames the profile to the untrimmed `newName` when
     * the guard allows it, and leaves the editor in every case.
     */
    method HandleSaveName()
      requires !NotFound() && profiles.Valid()
      modifies this`isEditingName, profiles
      ensures !isEditingName
      ensures profiles.Valid() && profiles.loading == old(profiles.loading)
      ensures profiles.loading ==> profiles.persisted == old(profiles.persisted)
      ensures var current := old(CurrentProfile().value);
        profiles.profiles ==
          if ShouldRename(newName, current.name) then Renamed(old(profiles.profiles), current.id, newName)
          else old(profiles.profiles)
    {
      var current := CurrentProfile().value;
      if ShouldRename(newName, current.name) {
        profiles.UpdateProfile(current.id, newName);
      }
      isEditingName := false;
    }

    /** `handleDeleteItem`: deletes that item id from the item store. */
    method HandleDeleteItem(itemId: string)
      requires barcodes.Valid()
      modifies barcodes
      ensures barcodes.Valid() && barcodes.loading == old(barcodes.loading)
      ensures barcodes.currentBarcode == old(barcodes.currentBarcode)
      ensures barcodes.items == WithoutItem(old(barcodes.items), itemId)
      ensures barcodes.loading ==> barcodes.persisted == old(barcodes.persisted)
      ensures Truthy(id) ==> Items() == WithoutItem(old(Items()), itemId)
    {
      barcodes.DeleteItem(itemId);
      if Truthy(id) {
        DeletedItemLeavesItsProfile(old(barcodes.items), itemId, id.value);
      }
    }

    /** Opening the editor and saving at once leaves the profiles as they were. */
    method EditAndSaveUnchanged()
      requires !NotFound() && profiles.Valid()
      modifies this`newName, this`isEditingName, profiles
      ensures profiles.profiles == old(profiles.profiles) && !isEditingName
    {
      HandleStartEditName();
      UneditedNameNeverRenames(newName);
      HandleSaveName();
    }
  }
}
