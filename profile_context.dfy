/**
 * The profile store: the list of people gift ideas are collected for,
 * held by the profile provider as React state and mirrored to local
 * storage under the key 'profiles'.
 */
module ProfileContext {
  import opened Wrappers
  import opened Sequences

  /** A person gift ideas are collected for. */
  datatype Profile = Profile(id: string, name: string, createdAt: string)

  /** The two demonstration profiles seeded when storage holds no list; both are stamped `now`. */
  function DefaultProfiles(now: string): (r: seq<Profile>)
    ensures |r| == 2 && r[0].id != r[1].id
    ensures r[0].id == "1" && r[0].name == "Emma"
    ensures r[1].id == "2" && r[1].name == "Noah"
  {
    [Profile("1", "Emma", now), Profile("2", "Noah", now)]
  }

  /** The list `updateProfile(id, name)` computes: profiles with that id take `name`, nothing else moves. */
  function Renamed(ps: seq<Profile>, id: string, name: string): (r: seq<Profile>)
    ensures |r| == |ps|
    ensures forall i :: 0 <= i < |ps| ==>
      r[i].id == ps[i].id && r[i].createdAt == ps[i].createdAt &&
      r[i].name == (if ps[i].id == id then name else ps[i].name)
    ensures (forall i :: 0 <= i < |ps| ==> ps[i].id != id) ==> r == ps
  {
    if ps == [] then []
    else [if ps[0].id == id then ps[0].(name := name) else ps[0]] + Renamed(ps[1..], id, name)
  }

  /** Renaming twice to the same name is renaming once. */
  lemma RenamedIdempotent(ps: seq<Profile>, id: string, name: string)
    ensures Renamed(Renamed(ps, id, name), id, name) == Renamed(ps, id, name)
  {
  }

  /** Renaming to the name every profile with that id already has leaves the list as it was. */
  lemma RenamedToSameName(ps: seq<Profile>, id: string, name: string)
    requires forall i :: 0 <= i < |ps| && ps[i].id == id ==> ps[i].name == name
    ensures Renamed(ps, id, name) == ps
  {
  }

  /** The list `deleteProfile(id)` computes: the profiles whose id differs, in their order. */
  function WithoutProfile(ps: seq<Profile>, id: string): (r: seq<Profile>)
    ensures forall i :: 0 <= i < |r| ==> r[i].id != id && r[i] in ps
    ensures forall i :: 0 <= i < |ps| && ps[i].id != id ==> ps[i] in r
    ensures forall x :: multiset(r)[x] == if x.id != id then multiset(ps)[x] else 0
    ensures IsSubsequence(r, ps)
    ensures (forall i :: 0 <= i < |ps| ==> ps[i].id != id) ==> r == ps
  {
    var keep := (p: Profile) => p.id != id;
    FilterIsSubsequence(ps, keep);
    forall x {
      FilterMultiplicity(ps, keep, x);
    }
    if forall i :: 0 <= i < |ps| ==> ps[i].id != id then
      FilterKeepsAll(ps, keep);
      Filter(ps, keep)
    else
      Filter(ps, keep)
  }

  /** Deleting a profile twice is deleting it once. */
  lemma WithoutProfileIdempotent(ps: seq<Profile>, id: string)
    ensures WithoutProfile(WithoutProfile(ps, id), id) == WithoutProfile(ps, id)
  {
  }

  /** Adding a profile under an id no profile has, then deleting that id, gives back the list. */
  lemma {:induction false} AddThenDeleteProfile(ps: seq<Profile>, p: Profile)
    requires forall i :: 0 <= i < |ps| ==> ps[i].id != p.id
    ensures WithoutProfile(ps + [p], p.id) == ps
  {
    var keep := (q: Profile) => q.id != p.id;
    FilterAppend(ps, p, keep);
    FilterKeepsAll(ps, keep);
  }

  /**
   * The profile provider. `profiles` is the React state; `persisted` is
   * what local storage holds under 'profiles', with the JSON encoding left
   * out. Once loading has finished, the write-back effect keeps the two equal.
   */
  class ProfileProvider {
    var profiles: seq<Profile>
    var loading: bool
    ghost var persisted: Option<seq<Profile>>

    ghost predicate Valid()
      reads this
    {
      !loading ==> persisted == Some(profiles)
    }

    /** The provider as first rendered, over a storage holding `storage` (None: no entry). */
    constructor (ghost storage: Option<seq<Profile>>)
      ensures Valid()
      ensures profiles == [] && loading && persisted == storage
    {
      profiles := [];
      loading := true;
      persisted := storage;
    }

    /**
     * The load effect: the stored list if there is one, otherwise the two
     * default profiles, which are written to storage.
     */
    method Load(stored: Option<seq<Profile>>, now: string)
      requires stored == persisted
      modifies this
      ensures Valid() && !loading
      ensures profiles == if stored.Some? then stored.value else DefaultProfiles(now)
    {
      if stored.Some? {
        profiles := stored.value;
      } else {
        profiles := DefaultProfiles(now);
        persisted := Some(profiles);
      }
      loading := false;
    }

    /**
     * `addProfile`: one profile with exactly `name` (no trimming, no check)
     * appended after all the others; `id` and `createdAt` are the clock
     * readings the source takes.
     */
    method AddProfile(name: string, id: string, createdAt: string)
      requires Valid()
      modifies this
      ensures Valid() && loading == old(loading)
      ensures profiles == old(profiles) + [Profile(id, name, createdAt)]
      ensures loading ==> persisted == old(persisted)
    {
      profiles := profiles + [Profile(id, name, createdAt)];
      if !loading {
        persisted := Some(profiles);
      }
    }

    /** `updateProfile`: every profile with that id takes `name`; no check on `name`. */
    method UpdateProfile(id: string, name: string)
      requires Valid()
      modifies this
      ensures Valid() && loading == old(loading)
      ensures profiles == Renamed(old(profiles), id, name)
      ensures loading ==> persisted == old(persisted)
    {
      profiles := Renamed(profiles, id, name);
      if !loading {
        persisted := Some(profiles);
      }
    }

    /** `deleteProfile`: every profile with that id goes; the items that name it are not touched. */
    method DeleteProfile(id: string)
      requires Valid()
      modifies this
      ensures Valid() && loading == old(loading)
      ensures profiles == WithoutProfile(old(profiles), id)
      ensures loading ==> persisted == old(persisted)
    {
      profiles := WithoutProfile(profiles, id);
      if !loading {
        persisted := Some(profiles);
      }
    }

    /** `getProfileById`: the first profile with that id, if any; a read that changes nothing. */
    function GetProfileById(id: string): (r: Option<Profile>)
      reads this
      ensures r.None? <==> forall i :: 0 <= i < |profiles| ==> profiles[i].id != id
      ensures r.Some? ==>
        exists i :: 0 <= i < |profiles| && profiles[i] == r.value && r.value.id == id &&
          forall j :: 0 <= j < i ==> profiles[j].id != id
    {
      Find(profiles, (p: Profile) => p.id == id)
    }
  }
}
