# Gift-idea collection layer, modelled in Dafny

This project models the client-side collection layer of a small gift-idea
app. People ("profiles") collect saved products ("items"). An item is
created by scanning a barcode, resolving it to product details, picking a
profile and saving.

There are two stores, each a React provider. The profile store is a list
of `{id, name, createdAt}`. The item store is a list of barcode items,
each tagged with a `profileId`, plus a one-slot "current barcode" left by
a scan. Both lists are mirrored to local storage. Around the stores sit
the handlers that guard calls into them: the product form, the profile
details page and the profile selector.

Files, one module each:

- `wrappers.dfy`: `Option`, for the source's `T | undefined` and `T | null`.
- `sequences.dfy`: `Array.prototype.filter` and `find`, with lemmas. The filter lemmas cover subsequence, multiplicity, identity, append and commuting.
- `text.dfy`: `String.prototype.trim` over ECMAScript's white-space and line-terminator code points, and JavaScript truthiness of an optional string.
- `profile_context.dfy`: `Profile` and the `ProfileProvider` class (`src/context/ProfileContext.tsx`).
- `barcode_context.dfy`: `BarcodeItem`, `ItemDraft` and the `BarcodeProvider` class with the scan slot (`src/context/BarcodeContext.tsx`).
- `product_form.dfy`: the product lookup table, the form's field state, and the submit guards (`src/components/ProductForm.tsx`). The `FormState` class holds the component's state.
- `profile_details.dfy`: the rename guard and the `Page` class with the page's handlers (`src/pages/ProfileDetails.tsx`).
- `profile_selector.dfy`: the add-profile trim guard, the click dispatch and the heading (`src/components/ProfileSelector.tsx`).

How the model is built:

- Each store holds its list in a field that its methods reassign. Adding appends one record in place (`old list + [record]`). Renaming and deleting take the new list from a pure function (`Renamed`, `WithoutProfile`, `WithoutItem`). The read `getItemsByProfileId` returns `ItemsOfProfile` of the current list. Lemmas state the properties of these functions.
- Each provider has a ghost `persisted` field for what local storage holds. `Valid()` states that once loading has finished, the stored copy equals the in-memory list. This is the write-back effect.
- Ids and timestamps come from `Date.now()` and `new Date().toISOString()` in the source. Here they are method parameters.

Where the code differs from what its own text suggests, the model follows the code:

- **Delete does not cascade.** Deleting a profile does not delete its items. `HandleDeleteProfile` leaves `barcodes.items` and the page's item list unchanged, although the confirmation dialog (src/pages/ProfileDetails.tsx:170) says the saved items are deleted too.
- **Saving never clears the scan slot.** `addItem` returns nothing, so the save handler's success branch (src/components/ProductForm.tsx:138-146) never runs. No success toast is shown, `currentBarcode` is not cleared and the page does not navigate. `HandleSubmit` states that `currentBarcode` is unchanged.
- **The stores do not validate names.** `AddProfile` and `UpdateProfile` accept any name. Only the handlers trim and check: the selector stores the trimmed name, while the details page passes the untrimmed one.
- **Blank names get no "Unknown Product" default.** The form's fallback `productName || 'Unknown Product'` can never apply, because the guard before it already rejects an empty name.
- **Unknown barcodes save empty strings, not absent fields.** The form starts with every field `''`, so an unknown barcode is saved with `''` for image, price and retailer (`SavedScan`).

## Model

| member | source | states |
|---|---|---|
| `Sequences.Filter` | src/context/ProfileContext.tsx:75 | Every kept element satisfies the test and comes from the input. Every input element that satisfies the test is kept. |
| `Sequences.Find` | src/context/ProfileContext.tsx:79 | Returns none exactly when no element matches. Otherwise it returns an element that matches, where no earlier element does. |
| `Text.Trim` | src/components/ProfileSelector.tsx:25-26 | The result is a slice of the input with only white space cut from either end. It neither starts nor ends with white space. |
| `Text.TrimIdempotent` | src/components/ProfileSelector.tsx:26 | Trimming an already trimmed string changes nothing, so the name stored is in trimmed form. |
| `Text.TrimEmptyIff` | src/pages/ProfileDetails.tsx:60 | A string trims to `''` exactly when every character is white space. |
| `ProfileContext.DefaultProfiles` | src/context/ProfileContext.tsx:40-43 | The seed is exactly profile `'1'` named Emma and profile `'2'` named Noah, with distinct ids. |
| `ProfileContext.Renamed` | src/context/ProfileContext.tsx:66-72 | Length and order are kept. Every profile keeps its id and `createdAt`. The name changes exactly for profiles with that id. An id that no profile has leaves the list unchanged. |
| `ProfileContext.RenamedIdempotent` | src/context/ProfileContext.tsx:66-72 | Applying the same rename twice equals applying it once. |
| `ProfileContext.RenamedToSameName` | src/context/ProfileContext.tsx:66-72 | Renaming to the name the matching profiles already have changes nothing. |
| `ProfileContext.WithoutProfile` | src/context/ProfileContext.tsx:74-76 | No survivor has the id. Every copy of every other profile survives (multiset count), in its original order (a subsequence). A missing id is a no-op. |
| `ProfileContext.WithoutProfileIdempotent` | src/context/ProfileContext.tsx:74-76 | Deleting twice equals deleting once. |
| `ProfileContext.AddThenDeleteProfile` | src/context/ProfileContext.tsx:57-76 | Adding a profile under a fresh id and then deleting that id restores the list. |
| `ProfileContext.ProfileProvider.Valid` | src/context/ProfileContext.tsx:50-55 | The write-back effect: once loading is over, the stored copy equals the in-memory list. Every mutator keeps this, and while loading it leaves storage untouched. |
| `ProfileContext.ProfileProvider.constructor` | src/context/ProfileContext.tsx:30-31 | The list starts empty and loading. The storage holds whatever it held before. |
| `ProfileContext.ProfileProvider.Load` | src/context/ProfileContext.tsx:33-55 | The list is the stored one if it exists, otherwise the default seed. Afterwards, storage equals the list and loading is over. |
| `ProfileContext.ProfileProvider.AddProfile` | src/context/ProfileContext.tsx:57-64 | Appends exactly one profile with exactly `name`, the given id and the given `createdAt`. Earlier profiles are unchanged. The change is written back once loaded. |
| `ProfileContext.ProfileProvider.UpdateProfile` | src/context/ProfileContext.tsx:66-72 | The list becomes `Renamed(old list, id, name)`, with no check on `name`. It is written back once loaded. |
| `ProfileContext.ProfileProvider.DeleteProfile` | src/context/ProfileContext.tsx:74-76 | The list becomes `WithoutProfile(old list, id)`. It is written back once loaded. |
| `ProfileContext.ProfileProvider.GetProfileById` | src/context/ProfileContext.tsx:78-80 | Returns the first profile with that id, or none when there is none. It only reads. |
| `BarcodeContext.Stamp` | src/context/BarcodeContext.tsx:86-91 | The new item carries the draft's fields unchanged, plus the given `id` and `dateAdded`. |
| `BarcodeContext.DemoItems` | src/context/BarcodeContext.tsx:49-73 | The seed is items `'1'` and `'2'`, for profiles `'1'` and `'2'`. |
| `BarcodeContext.DemoItemsReferenceDefaultProfiles` | src/context/BarcodeContext.tsx:49-73 | Demo item ids are distinct. Every demo item names a profile of the default profile seed. |
| `BarcodeContext.WithoutItem` | src/context/BarcodeContext.tsx:95-97 | No survivor has the id. Every copy of every other item survives (multiset count), in order (a subsequence). A missing id is a no-op. |
| `BarcodeContext.WithoutItemIdempotent` | src/context/BarcodeContext.tsx:95-97 | Deleting twice equals deleting once. |
| `BarcodeContext.ItemsOfProfile` | src/context/BarcodeContext.tsx:99-101 | Returns exactly the items with that `profileId`, with every copy, as an order-preserving subsequence. It is empty when none match. |
| `BarcodeContext.AddedItemJoinsItsProfile` | src/context/BarcodeContext.tsx:86-101 | After an add, the new item appears last in its own profile's list. Every other profile's list is unchanged. |
| `BarcodeContext.DeletedItemLeavesItsProfile` | src/context/BarcodeContext.tsx:95-101 | After a delete, each profile's list equals its old list without that item id. |
| `BarcodeContext.AddThenDeleteItem` | src/context/BarcodeContext.tsx:86-97 | Adding under a fresh id and then deleting that id restores the list. |
| `BarcodeContext.BarcodeProvider.Valid` | src/context/BarcodeContext.tsx:79-84 | The write-back effect: once loading is over, the stored copy equals the in-memory item list. Every mutator keeps this, and while loading it leaves storage untouched. |
| `BarcodeContext.BarcodeProvider.constructor` | src/context/BarcodeContext.tsx:38-40 | The list starts empty and loading, and no barcode is pending. |
| `BarcodeContext.BarcodeProvider.Load` | src/context/BarcodeContext.tsx:42-84 | The list is the stored one if it exists, otherwise the demo seed. Afterwards, storage equals the list. The slot is untouched. |
| `BarcodeContext.BarcodeProvider.AddItem` | src/context/BarcodeContext.tsx:86-93 | Appends exactly `Stamp(draft, id, dateAdded)`. Earlier items and the slot are unchanged. There is no result. The change is written back once loaded. |
| `BarcodeContext.BarcodeProvider.DeleteItem` | src/context/BarcodeContext.tsx:95-97 | The list becomes `WithoutItem(old list, id)`. The slot is unchanged. It is written back once loaded. |
| `BarcodeContext.BarcodeProvider.SetCurrentBarcode` | src/context/BarcodeContext.tsx:40 | The slot holds exactly the value set, and `null` clears it. Nothing else changes. |
| `BarcodeContext.BarcodeProvider.GetItemsByProfileId` | src/context/BarcodeContext.tsx:99-101 | Returns `ItemsOfProfile(items, profileId)` over the current list. It only reads. |
| `BarcodeContext.BarcodeProvider.GetItemById` | src/context/BarcodeContext.tsx:103-105 | Returns the first item with that id, or none. It only reads. |
| `BarcodeContext.LastScanWins` | src/context/BarcodeContext.tsx:40 | Setting "A" and then "B" leaves "B" in the slot, not both. Only the slot is in the frame. |
| `ProductForm.FetchProductDetails` | src/components/ProductForm.tsx:20-51 | The barcode is always echoed and the name is never empty. The two known barcodes give their fixed name, price and retailer. Any other barcode gives 'Unknown Product' with the placeholder description and no image, price or retailer. |
| `ProductForm.InitialFields` | src/components/ProductForm.tsx:54-61 | The form starts with the barcode and every other field `''`. |
| `ProductForm.Merge` | src/components/ProductForm.tsx:76 | A field present in the details wins. Every other field keeps its previous value. |
| `ProductForm.WithField` | src/components/ProductForm.tsx:99-102 | Exactly the named field takes the value. Every other field is unchanged. |
| `ProductForm.LoadedFields` | src/components/ProductForm.tsx:54-76 | After loading, no field is absent. The barcode is the scanned one and the name is the fetched one. Fields the lookup omits stay `''`. |
| `ProductForm.Submit` | src/components/ProductForm.tsx:107-136 | With no product name there is no save. Otherwise, with no profile there is no save. Otherwise the draft has the profile's id, the form's non-empty name, the barcode or `''`, and the optional fields as they are. |
| `ProductForm.SavedScan` | src/components/ProductForm.tsx:54-136 | A scan saved without edits stores the scanned barcode, the fetched name and the chosen profile. An unknown barcode stores `''` image, price and retailer. |
| `ProductForm.FormState.constructor` | src/components/ProductForm.tsx:53-64 | The form starts from `InitialFields(barcode)`: loading, not saving, no profile selected. |
| `ProductForm.FormState.LoadProductDetails` | src/components/ProductForm.tsx:71-97 | Merges the fetched details into the form. Selects the `profileId` prop's profile when the prop is truthy and the profile exists. Loading ends. |
| `ProductForm.FormState.HandleChange` | src/components/ProductForm.tsx:99-102 | The form becomes `WithField(old form, name, value)`. |
| `ProductForm.FormState.HandleProfileSelect` | src/components/ProductForm.tsx:159-161 | The selected profile is the one pressed. |
| `ProductForm.FormState.HandleSubmit` | src/components/ProductForm.tsx:104-157 | Follows `Submit`. On a save it appends exactly the stamped draft and ends with `saving` false. Otherwise the items and `saving` are untouched. The scan slot is never cleared. While the store is loading, storage is untouched. |
| `ProductForm.FormState.Cancel` | src/components/ProductForm.tsx:282-285 | Clears the scan slot. |
| `ProfileDetails.ShouldRename` | src/pages/ProfileDetails.tsx:60 | Renames exactly when the new name has a non-white-space character and differs from the current name. |
| `ProfileDetails.UneditedNameNeverRenames` | src/pages/ProfileDetails.tsx:54-60 | Saving the name the editor opened with never renames. |
| `ProfileDetails.Page.constructor` | src/pages/ProfileDetails.tsx:16-24 | The page starts not editing, with `newName` `''` and the dialog closed. |
| `ProfileDetails.Page.CurrentProfile` | src/pages/ProfileDetails.tsx:26-29 | For a truthy id, returns `GetProfileById(id)`: the first stored profile with the route's id. It is none (the not-found branch) exactly when the id is falsy or no profile has it. |
| `ProfileDetails.Page.Items` | src/pages/ProfileDetails.tsx:27 | For a truthy id, returns exactly `ItemsOfProfile(store items, id)`: the items tagged with that id, every copy, in store order. For a falsy id, returns `[]`. |
| `ProfileDetails.Page.NotFound` | src/pages/ProfileDetails.tsx:29-41 | The not-found branch is taken exactly when the route id is falsy or no stored profile has it. |
| `ProfileDetails.Page.HandleDeleteProfile` | src/pages/ProfileDetails.tsx:43-52 | Only `WithoutProfile` is applied to the profiles. The items, including the page's own list, are unchanged. Storage is kept in step once loaded and untouched while loading. |
| `ProfileDetails.Page.HandleStartEditName` | src/pages/ProfileDetails.tsx:54-57 | Opens the editor on the current name. |
| `ProfileDetails.Page.SetNewName` | src/pages/ProfileDetails.tsx:91 | The editor holds the typed text. |
| `ProfileDetails.Page.HandleSaveName` | src/pages/ProfileDetails.tsx:59-68 | Renames to the untrimmed `newName` exactly when `ShouldRename` holds, and otherwise changes nothing. It always leaves editing mode. Storage is kept in step once loaded and untouched while loading. |
| `ProfileDetails.Page.HandleDeleteItem` | src/pages/ProfileDetails.tsx:70-72 | The items become `WithoutItem(old items, itemId)`. The page's list loses exactly that item id. Storage is kept in step once loaded and untouched while loading. |
| `ProfileDetails.Page.EditAndSaveUnchanged` | src/pages/ProfileDetails.tsx:54-68 | Opening the editor and saving at once leaves the profiles unchanged and ends editing. |
| `ProfileSelector.PromptedName` | src/components/ProfileSelector.tsx:24-26 | Gives a name exactly when the prompt was not cancelled and the input has a non-white-space character. The name is the trimmed input, and trimming it again changes nothing. |
| `ProfileSelector.HandleAddProfile` | src/components/ProfileSelector.tsx:23-32 | Appends one profile with the trimmed name. A cancelled or white-space-only input leaves the list unchanged. Storage is kept in step once loaded and untouched while loading. |
| `ProfileSelector.ProfileClick` | src/components/ProfileSelector.tsx:34-42 | With a truthy barcode, calls `onSelectProfile` when given and never navigates. Otherwise, including for `''`, opens `/profiles/{id}`. |
| `ProfileSelector.Heading` | src/components/ProfileSelector.tsx:62-64 | The heading is 'Select a Profile' exactly when the barcode is truthy, else 'Profiles'. |
| `ProfileSelector.HeadingMatchesClick` | src/components/ProfileSelector.tsx:34-64 | The heading asks for a profile exactly when a click does not navigate. |

## Left out

- Local storage I/O and JSON encoding: the stored value is passed in as an `Option` (None: `getItem` returned null), and encoding is the identity. A stored raw string that is empty (falsy) would also take the seed branch; it cannot arise, since the code only ever writes JSON text.
- The `loading` flag of each provider is modelled; the React render cycle, effect scheduling and stale closures are not. Handlers run one after another.
- Clock readings (`Date.now()`, `new Date().toISOString()`) are parameters. `ProfileContext.DefaultProfiles` and `BarcodeContext.DemoItems` take one `now` for both seed entries, where the source reads the clock once per entry. Id uniqueness is not guaranteed by the code and is not assumed, except as an explicit precondition of the two add-then-delete lemmas.
- `ProductForm.FetchProductDetails`: the 1.5 s delay and `async`/`await` are left out, so the lookup is a pure function. The `catch` branches of the load effect and of the submit handler are unreachable, because neither the lookup nor `addItem` throws, and they are not modelled.
- `ProductForm.FormState.HandleSubmit`: the success branch after `addItem` (success toast, clearing the slot, navigation) is never taken, because `addItem` returns nothing. The model therefore has no such branch.
- Toasts, navigation (`navigate(-1)`, the not-found page's button), the delete dialog's open flag handlers, animation and all rendering are presentation. The navigation target of a profile click is kept, as a value.
- The barcode scanner (camera, decoding library, timers) is not part of this model. Its only contact with the core, setting the scan slot on a decode, is `BarcodeProvider.SetCurrentBarcode`.
- `Partial<BarcodeItem>` also allows `id`, `profileId` and `dateAdded`. The form never sets them, so `ProductFields` leaves them out.
- `onSelectProfile` is reduced to whether the parent supplied it; what the callback does belongs to the caller.
