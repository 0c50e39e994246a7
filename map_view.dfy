/** The map view: the mock people on the map, the hobby filter over them, the list of hobbies
    offered as filter buttons, and the loading flag. */
module MapView {
  import opened Types
  import opened Seqs

  /** A person on the map (`MOCK_USERS`); positions are not used by the logic modelled here. */
  datatype MapUser = MapUser(id: int, name: string, avatar: string, location: UserLocation,
                             hobbies: seq<string>, active: bool, premium: bool)

  function MockUsers(): (us: seq<MapUser>)
    ensures |us| == 5
  {
    [ MapUser(1, "Alex Chen", "https://i.pravatar.cc/150?img=1", UserLocation(40.7128, -74.006, None, None),
              ["Photography", "Hiking", "Painting"], true, true),
      MapUser(2, "Jordan Taylor", "https://i.pravatar.cc/150?img=2", UserLocation(40.7148, -74.012, None, None),
              ["Cooking", "Reading", "Gaming"], true, false),
      MapUser(3, "Sam Rivera", "https://i.pravatar.cc/150?img=3", UserLocation(40.7168, -74.002, None, None),
              ["Hiking", "Yoga", "Photography"], true, false),
      MapUser(4, "Morgan Lee", "https://i.pravatar.cc/150?img=4", UserLocation(40.7108, -74.009, None, None),
              ["Dancing", "Music", "Reading"], true, true),
      MapUser(5, "Casey Kim", "https://i.pravatar.cc/150?img=5", UserLocation(40.7138, -73.998, None, None),
              ["Gaming", "Coding", "Movies"], true, false) ]
  }

  /** Whether a person passes the hobby filter: everyone passes an empty filter. */
  function Passes(u: MapUser, filter: seq<string>): (r: bool)
    ensures filter == [] ==> r
    ensures filter != [] ==> (r <==> exists i :: 0 <= i < |u.hobbies| && u.hobbies[i] in filter)
  {
    |filter| == 0 || SharesAny(u.hobbies, filter)
  }

  /** The people of `us` that pass the filter, in their original order. */
  function UsersPassing(us: seq<MapUser>, filter: seq<string>): (r: seq<MapUser>)
    ensures forall u :: u in r <==> u in us && Passes(u, filter)
    ensures filter == [] ==> r == us
    ensures IsSubseq(r, us)
  {
    if us == [] then []
    else
      var rest := UsersPassing(us[1..], filter);
      if Passes(us[0], filter) then
        assert ([us[0]] + rest)[1..] == rest;
        assert filter == [] ==> us == [us[0]] + us[1..];
        [us[0]] + rest
      else
        rest
  }

  /** `filteredUsers`: everyone for an empty filter, otherwise each person sharing a hobby with
      it, in the order of the mock list. */
  function FilteredUsers(filter: seq<string>): (r: seq<MapUser>)
    ensures filter == [] ==> r == MockUsers()
    ensures filter != [] ==> forall u :: u in r <==> u in MockUsers() && SharesAny(u.hobbies, filter)
    ensures IsSubseq(r, MockUsers())
  {
    UsersPassing(MockUsers(), filter)
  }

  /** Who is visible depends on the filter only through its members. */
  lemma {:induction false} UsersPassingByMembers(us: seq<MapUser>, f: seq<string>, g: seq<string>)
    requires forall h :: h in f <==> h in g
    ensures UsersPassing(us, f) == UsersPassing(us, g)
  {
    if us != [] {
      UsersPassingByMembers(us[1..], f, g);
      assert |f| == 0 <==> |g| == 0 by {
        if |f| != 0 { assert f[0] in g; }
        if |g| != 0 { assert g[0] in f; }
      }
      assert Passes(us[0], f) == Passes(us[0], g);
    }
  }

  /** Toggling the same hobby twice leaves the same people visible. */
  lemma ToggleTwiceKeepsVisible(filter: seq<string>, h: string)
    ensures FilteredUsers(Toggle(Toggle(filter, h), h)) == FilteredUsers(filter)
  {
    ToggleTwice(filter, h);
    UsersPassingByMembers(MockUsers(), Toggle(Toggle(filter, h), h), filter);
  }

  function HobbyLists(us: seq<MapUser>): (r: seq<seq<string>>)
    ensures |r| == |us| && forall i :: 0 <= i < |us| ==> r[i] == us[i].hobbies
  {
    seq(|us|, i requires 0 <= i < |us| => us[i].hobbies)
  }

  /** `Array.from(new Set(us.flatMap(user => user.hobbies)))`. */
  function DistinctHobbies(us: seq<MapUser>): (r: seq<string>)
    ensures r == Dedup(Flatten(HobbyLists(us)))
  {
    SetOrderIsDedup(Flatten(HobbyLists(us)));
    SetOrder(Flatten(HobbyLists(us)))
  }

  /** The filter buttons: each hobby some person has, once, in order of first appearance in
      the concatenated hobby lists. */
  lemma DistinctHobbiesSpec(us: seq<MapUser>)
    ensures NoDup(DistinctHobbies(us))
    ensures forall h :: h in DistinctHobbies(us) <==> exists i :: 0 <= i < |us| && h in us[i].hobbies
    ensures forall h :: h in DistinctHobbies(us) ==> h in Flatten(HobbyLists(us))
    ensures var r, all := DistinctHobbies(us), Flatten(HobbyLists(us));
      forall i, j :: 0 <= i < j < |r| ==> FirstIndex(all, r[i]) < FirstIndex(all, r[j])
  {
    SetOrderIsDedup(Flatten(HobbyLists(us)));
  }

  /** The hobby buttons of the map page. */
  function AllHobbies(): (r: seq<string>)
    ensures NoDup(r)
    ensures forall h :: h in r <==> exists i :: 0 <= i < |MockUsers()| && h in MockUsers()[i].hobbies
  {
    DistinctHobbiesSpec(MockUsers());
    DistinctHobbies(MockUsers())
  }

  /** The view's own state: the loading flag and the selected filter hobbies. */
  class MapViewState {
    var isLoading: bool
    var filteredHobbies: seq<string>

    constructor()
      ensures isLoading && filteredHobbies == []
    {
      isLoading := true;
      filteredHobbies := [];
    }

    /** The loading timer firing: the flag only ever goes from true to false. */
    method FinishLoading()
      modifies this`isLoading
      ensures !isLoading
    {
      isLoading := false;
    }

    method ToggleHobbyFilter(h: string)
      modifies this`filteredHobbies
      ensures filteredHobbies == Toggle(old(filteredHobbies), h)
      ensures h in filteredHobbies <==> h !in old(filteredHobbies)
    {
      if h in filteredHobbies {
        filteredHobbies := RemoveAll(filteredHobbies, h);
      } else {
        filteredHobbies := filteredHobbies + [h];
      }
    }
  }
}
