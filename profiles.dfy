/** The display names joined into the gallery and the chat: the `profiles`
    rows fetched for a list of user ids, put in a map by user id, and the
    fallback "Camper" for a user without a (non-empty) name. */
module Profiles {
  import opened Wrappers
  import Lists
  import Rows

  const Camper := "Camper"

  /** `new Map(profiles?.map(p => [p.user_id, p.name]) || [])`: one entry per
      user id, the last row of a user winning; no rows give an empty map. */
  function NameMap(profiles: Option<seq<Rows.Profile>>): (m: map<string, Option<string>>)
    ensures profiles.None? ==> m == map[]
    ensures profiles.Some? ==> forall u :: u in m <==> exists i :: 0 <= i < |profiles.value| && profiles.value[i].userId == u
  {
    if profiles.None? then map[]
    else
      var pairs := Lists.Map(profiles.value, (p: Rows.Profile) => (p.userId, p.name));
      var m := Lists.MapOf(pairs);
      assert forall i :: 0 <= i < |pairs| ==> pairs[i].0 == profiles.value[i].userId;
      m
  }

  /** `name || "Camper"`: a missing, `null` or empty name gives the
      fallback. */
  function OrCamper(name: Option<string>): (r: string)
    ensures r != ""
    ensures name.Some? && name.value != "" ==> r == name.value
    ensures name.None? || name.value == "" ==> r == Camper
  {
    if name.Some? && name.value != "" then name.value else Camper
  }

  /** `profileMap.get(userId) || "Camper"`. */
  function NameOf(names: map<string, Option<string>>, userId: string): (r: string)
    ensures r != ""
    ensures userId !in names ==> r == Camper
    ensures userId in names ==> r == OrCamper(names[userId])
  {
    OrCamper(if userId in names then names[userId] else None)
  }

  /** The name joined in for a user is that of the user's last profile row. */
  lemma LastProfileNames(profiles: seq<Rows.Profile>, i: int)
    requires 0 <= i < |profiles|
    requires forall j :: i < j < |profiles| ==> profiles[j].userId != profiles[i].userId
    ensures NameOf(NameMap(Some(profiles)), profiles[i].userId) == OrCamper(profiles[i].name)
  {
    var pairs := Lists.Map(profiles, (p: Rows.Profile) => (p.userId, p.name));
    assert forall j :: 0 <= j < |pairs| ==> pairs[j] == (profiles[j].userId, profiles[j].name);
    Lists.MapOfLastWins(pairs, i);
  }

  /** A user without any profile row is shown as "Camper". */
  lemma NoProfileIsCamper(profiles: Option<seq<Rows.Profile>>, userId: string)
    requires profiles.Some? ==> forall i :: 0 <= i < |profiles.value| ==> profiles.value[i].userId != userId
    ensures NameOf(NameMap(profiles), userId) == Camper
  {
  }
}
