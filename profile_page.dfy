/** The profile page: the hobby catalogue, toggling a hobby on the user, the Clear control of
    the hobby picker wired to that toggle, and the edit/save switch for name, bio and privacy. */
module ProfilePage {
  import opened Types
  import opened Seqs
  import opened UserContext
  import HobbyFilter

  datatype Category = CreativeArts | Sports | Outdoor | Gaming | Food | Writing | Collecting

  /** The categories in declaration order. */
  function Categories(): seq<Category> {
    [CreativeArts, Sports, Outdoor, Gaming, Food, Writing, Collecting]
  }

  function CategoryHobbies(c: Category): seq<string> {
    match c
    case CreativeArts => ["Painting & Drawing", "Pottery & Ceramics", "Crafting & DIY", "Photography",
                          "Theater & Acting", "Music Jamming", "Dancing"]
    case Sports => ["Running", "Yoga & Meditation", "Cycling", "Martial Arts", "Rock Climbing",
                    "Ultimate Frisbee", "Soccer", "Basketball"]
    case Outdoor => ["Hiking", "Camping", "Birdwatching", "Kayaking & Canoeing", "Geocaching"]
    case Gaming => ["Board Games", "Dungeons & Dragons", "Esports & Video Games", "Chess"]
    case Food => ["Cooking Clubs", "Wine Tasting", "Coffee Tasting", "Baking", "Community Gardening"]
    case Writing => ["Book Clubs", "Writing Groups", "Philosophy & Debate", "Foreign Language Meetups"]
    case Collecting => ["Comic Con & Fan Conventions", "Vintage & Antique Collecting", "Coin Collecting",
                        "Stamp Collecting"]
  }

  function CategoryLists(): (r: seq<seq<string>>)
    ensures |r| == |Categories()| && forall i :: 0 <= i < |r| ==> r[i] == CategoryHobbies(Categories()[i])
  {
    seq(|Categories()|, i requires 0 <= i < |Categories()| => CategoryHobbies(Categories()[i]))
  }

  /** `Object.values(hobbyCategories).flat()`. */
  function AllHobbies(): (r: seq<string>)
    ensures forall h :: h in r <==> exists c :: c in Categories() && h in CategoryHobbies(c)
  {
    CatalogueMembership();
    Flatten(CategoryLists())
  }

  /** A hobby is in the flattened catalogue exactly when some category lists it. */
  lemma CatalogueMembership()
    ensures forall h :: h in Flatten(CategoryLists()) <==> exists c :: c in Categories() && h in CategoryHobbies(c)
  {
    forall h | h in Flatten(CategoryLists())
      ensures exists c :: c in Categories() && h in CategoryHobbies(c)
    {
      var i :| 0 <= i < |CategoryLists()| && h in CategoryLists()[i];
      assert Categories()[i] in Categories();
    }
    forall h, c | c in Categories() && h in CategoryHobbies(c)
      ensures h in Flatten(CategoryLists())
    {
      var i :| 0 <= i < |Categories()| && Categories()[i] == c;
      assert h in CategoryLists()[i];
    }
  }

  /** The catalogue holds exactly the categories' hobbies, and each category's list appears
      whole, after the categories declared before it and before those declared after it. */
  lemma AllHobbiesInDeclarationOrder(k: nat)
    requires k < |Categories()|
    ensures AllHobbies() == Flatten(CategoryLists()[..k]) + CategoryHobbies(Categories()[k])
                            + Flatten(CategoryLists()[k + 1..])
    ensures forall h :: h in AllHobbies() <==> exists c :: c in Categories() && h in CategoryHobbies(c)
  {
    FlattenSplit(CategoryLists(), k);
  }

  /** The hobby list after the toggle callback has run for each of `calls` in turn, each call
      reading the list the previous one left. */
  function ApplyToggles(hs: seq<string>, calls: seq<string>): seq<string>
    decreases |calls|
  {
    if calls == [] then hs
    else Toggle(ApplyToggles(hs, calls[..|calls| - 1]), calls[|calls| - 1])
  }

  /** One more call of the callback toggles the list the earlier calls left. */
  lemma ApplyTogglesStep(hs: seq<string>, i: nat)
    requires i < |hs|
    ensures ApplyToggles(hs, hs[..i + 1]) == Toggle(ApplyToggles(hs, hs[..i]), hs[i])
  {
    assert hs[..i + 1][..i] == hs[..i];
  }

  /** With no hobby listed twice, toggling the first `i` hobbies in order leaves the rest. */
  lemma {:induction false} TogglePrefixLeavesSuffix(hs: seq<string>, i: nat)
    requires NoDup(hs) && i <= |hs|
    ensures ApplyToggles(hs, hs[..i]) == hs[i..]
  {
    if i == 0 {
      assert hs[..0] == [];
    } else {
      TogglePrefixLeavesSuffix(hs, i - 1);
      assert hs[..i][..i - 1] == hs[..i - 1];
      var rest := hs[i - 1..];
      assert rest[1..] == hs[i..];
      assert rest[0] !in rest[1..] by {
        forall j | i <= j < |hs| ensures hs[j] != hs[i - 1] { }
      }
      ToggleHead(rest);
    }
  }

  /** Toggling the first element of a list that holds it once drops exactly that element. */
  lemma ToggleHead(rest: seq<string>)
    requires rest != [] && rest[0] !in rest[1..]
    ensures Toggle(rest, rest[0]) == rest[1..]
  {
    assert RemoveAll(rest, rest[0]) == RemoveAll(rest[1..], rest[0]);
  }

  /** Clear toggles every selected hobby once, in order: with no hobby listed twice this
      leaves none. */
  lemma ClearEmptiesHobbies(hs: seq<string>)
    requires NoDup(hs)
    ensures ApplyToggles(hs, hs) == []
  {
    TogglePrefixLeavesSuffix(hs, |hs|);
    assert hs[..|hs|] == hs;
  }

  /** Clear as written on this page: the picker calls `toggleHobby` once per selected hobby
      within one click, and every call computes its list from the `currentUser` of the same
      render, `rendered`, while `updateUserHobbies` replaces the stored list each time. The
      selection shown to the picker is the user's own hobby list. */
  method ClearAsWritten(store: UserStore)
    requires store.Persisted()
    modifies store
    ensures var rendered := old(store.currentUser.hobbies);
      store.currentUser.hobbies == if rendered == [] then rendered else Toggle(rendered, rendered[|rendered| - 1])
    ensures store.currentUser == old(store.currentUser).(hobbies := store.currentUser.hobbies)
    ensures store.isAuthenticated == old(store.isAuthenticated) && store.notifications == old(store.notifications)
    ensures store.Persisted()
  {
    var start := store.currentUser;
    var rendered := start.hobbies;
    var selected := rendered;
    var i := 0;
    while i < |selected|
      invariant i <= |selected|
      invariant store.currentUser.hobbies == if i == 0 then rendered else Toggle(rendered, selected[i - 1])
      invariant store.currentUser == start.(hobbies := store.currentUser.hobbies)
      invariant store.isAuthenticated == old(store.isAuthenticated)
      invariant store.notifications == old(store.notifications)
      invariant store.Persisted()
    {
      store.UpdateUserHobbies(Toggle(rendered, selected[i]));
      i := i + 1;
    }
  }

  /** For two distinct hobbies, the last toggle alone drops the second, while the toggles in
      turn drop both. */
  lemma TwoHobbiesCleared(a: string, b: string)
    requires a != b
    ensures Toggle([a, b], b) == [a] && ApplyToggles([a, b], [a, b]) == []
  {
    ClearEmptiesHobbies([a, b]);
    assert RemoveAll([b], b) == [];
    assert [a, b][1..] == [b];
  }

  /** Clear as written leaves a selection of two distinct hobbies at one of them, where the
      toggles applied in turn leave none. */
  lemma ClearAsWrittenKeepsHobby()
    ensures var rendered := ["Hiking", "Yoga"];
      Toggle(rendered, rendered[|rendered| - 1]) == ["Hiking"] && ApplyToggles(rendered, rendered) == []
  {
    TwoHobbiesCleared("Hiking", "Yoga");
  }

  /** The Clear control is offered while the user holds a hobby, and with no hobby listed twice
      the sequential Clear removes it. */
  lemma ClearRemovesControl(hs: seq<string>)
    requires NoDup(hs)
    ensures HobbyFilter.ClearControl(hs).Some? <==> hs != []
    ensures HobbyFilter.ClearControl(ApplyToggles(hs, hs)).None?
  {
    ClearEmptiesHobbies(hs);
  }

  /** The page's edit state, initialised from the user when the page mounts. */
  class ProfileEditor {
    var isEditing: bool
    var name: string
    var bio: string
    var privacy: PrivacyLevel

    constructor(user: UserProfile)
      ensures !isEditing && name == user.name && privacy == user.privacy
      ensures user.bio.Some? ==> bio == user.bio.value
      ensures user.bio.None? ==> bio == ""
    {
      isEditing := false;
      name := user.name;
      bio := user.bio.GetOr("");
      privacy := user.privacy;
    }

    method SetName(s: string)
      modifies this`name
      ensures name == s
    {
      name := s;
    }

    method SetBio(s: string)
      modifies this`bio
      ensures bio == s
    {
      bio := s;
    }

    method SetPrivacy(p: PrivacyLevel)
      modifies this`privacy
      ensures privacy == p
    {
      privacy := p;
    }

    /** `toggleEditing`: leaving edit mode saves the three edited fields into the user and keeps
        every other field; entering it leaves the store alone. The mode flips either way. */
    method ToggleEditing(store: UserStore)
      modifies this`isEditing, store
      ensures isEditing == !old(isEditing)
      ensures old(isEditing) ==>
        store.currentUser.name == name && store.currentUser.bio == Some(bio) &&
        store.currentUser.privacy == privacy &&
        store.currentUser.(name := old(store.currentUser.name), bio := old(store.currentUser.bio),
                           privacy := old(store.currentUser.privacy)) == old(store.currentUser)
      ensures old(isEditing) ==> store.isAuthenticated == old(store.isAuthenticated) && store.Persisted()
      ensures store.notifications == old(store.notifications)
      ensures !old(isEditing) ==> unchanged(store)
    {
      if isEditing {
        EditPatchTouchesThreeFields(store.currentUser, name, bio, privacy);
        store.SetCurrentUser(Merge(store.currentUser, EditPatch(name, bio, privacy)));
      }
      isEditing := !isEditing;
    }
  }

  /** `toggleHobby`: the user's hobby list with `h` removed when held and appended otherwise,
      handed to `updateUserHobbies`. */
  method ToggleHobby(store: UserStore, h: string)
    modifies store
    ensures store.currentUser == old(store.currentUser).(hobbies := Toggle(old(store.currentUser.hobbies), h))
    ensures store.isAuthenticated == old(store.isAuthenticated) && store.notifications == old(store.notifications)
    ensures store.Persisted()
  {
    store.UpdateUserHobbies(Toggle(store.currentUser.hobbies, h));
  }

  /** The picker's Clear on this page: `toggleHobby` for each hobby the user held, in order, each
      call reading the list the previous one left. */
  method ClearSelectedHobbies(store: UserStore)
    requires store.Persisted()
    modifies store
    ensures store.currentUser == old(store.currentUser).(hobbies := ApplyToggles(old(store.currentUser.hobbies),
                                                                                 old(store.currentUser.hobbies)))
    ensures NoDup(old(store.currentUser.hobbies)) ==> store.currentUser.hobbies == []
    ensures store.isAuthenticated == old(store.isAuthenticated) && store.notifications == old(store.notifications)
    ensures store.Persisted()
  {
    var start := store.currentUser;
    var selected := start.hobbies;
    var i := 0;
    while i < |selected|
      invariant i <= |selected|
      invariant store.currentUser.hobbies == ApplyToggles(selected, selected[..i])
      invariant store.currentUser == start.(hobbies := store.currentUser.hobbies)
      invariant store.isAuthenticated == old(store.isAuthenticated)
      invariant store.notifications == old(store.notifications)
      invariant store.Persisted()
    {
      ToggleHobby(store, selected[i]);
      ApplyTogglesStep(selected, i);
      i := i + 1;
    }
    assert selected[..|selected|] == selected;
    if NoDup(selected) {
      ClearEmptiesHobbies(selected);
    }
  }
}
