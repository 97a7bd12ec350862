/**
 * The profile selector: lists the profiles, adds one from a name prompt,
 * and on a click either hands the profile to the pending scan or opens
 * the profile's page.
 */
module ProfileSelector {
  import opened Wrappers
  import opened Text
  import opened ProfileContext

  /**
   * `handleAddProfile`'s guard on the prompt's result (None: cancelled):
   * the trimmed name when it is not empty, otherwise nothing to add.
   */
  function PromptedName(input: Option<string>): (r: Option<string>)
    ensures r.Some? <==>
      input.Some? && exists i :: 0 <= i < |input.value| && !IsWhiteSpace(input.value[i])
    ensures r.Some? ==>
      r.value == Trim(input.value) && r.value != "" &&
      !IsWhiteSpace(r.value[0]) && !IsWhiteSpace(r.value[|r.value| - 1])
    ensures r.Some? ==> Trim(r.value) == r.value
  {
    if input.Some? then
      TrimEmptyIff(input.value);
      TrimIdempotent(input.value);
      if Trim(input.value) != "" then Some(Trim(input.value)) else None
    else None
  }

  /**
   * `handleAddProfile`, with the prompt's result and the clock readings
   * `addProfile` takes: a profile with the trimmed name, or no change.
   */
  method HandleAddProfile(store: ProfileProvider, input: Option<string>, id: string, createdAt: string)
    requires store.Valid()
    modifies store
    ensures store.Valid() && store.loading == old(store.loading)
    ensures store.loading ==> store.persisted == old(store.persisted)
    ensures store.profiles ==
      if PromptedName(input).Some?
      then old(store.profiles) + [Profile(id, PromptedName(input).value, createdAt)]
      else old(store.profiles)
  {
    var name := PromptedName(input);
    if name.Some? {
      store.AddProfile(name.value, id, createdAt);
    }
  }

  /** What a click on a profile card does. */
  datatype ClickEffect = SelectProfile(profile: Profile) | NoEffect | Navigate(path: string)

  /**
   * `handleProfileClick`: with a pending (truthy) barcode, pass the profile to
   * `onSelectProfile` when the parent gave one, else do nothing; with none
   * pending, including an empty barcode, open `/profiles/{id}`.
   */
  function ProfileClick(currentBarcode: Option<string>, hasOnSelectProfile: bool, profile: Profile): (r: ClickEffect)
    ensures r.Navigate? <==> !Truthy(currentBarcode)
    ensures r.Navigate? ==> r.path == "/profiles/" + profile.id
    ensures r.SelectProfile? <==> Truthy(currentBarcode) && hasOnSelectProfile
    ensures r.SelectProfile? ==> r.profile == profile
    ensures currentBarcode == Some("") ==> r.Navigate?
  {
    if Truthy(currentBarcode) then
      if hasOnSelectProfile then SelectProfile(profile) else NoEffect
    else Navigate("/profiles/" + profile.id)
  }

  /** The selector's heading. */
  function Heading(currentBarcode: Option<string>): (h: string)
    ensures h == "Select a Profile" <==> Truthy(currentBarcode)
    ensures h == "Profiles" <==> !Truthy(currentBarcode)
  {
    if Truthy(currentBarcode) then "Select a Profile" else "Profiles"
  }

  /** The heading asks for a profile exactly when a click would not open a profile page. */
  lemma HeadingMatchesClick(currentBarcode: Option<string>, hasOnSelectProfile: bool, profile: Profile)
    ensures Heading(currentBarcode) == "Select a Profile" <==>
      !ProfileClick(currentBarcode, hasOnSelectProfile, profile).Navigate?
  {
  }
}
