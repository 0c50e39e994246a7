/** The session store: the acting user's profile, the authenticated flag, the notification
    list, and the browser slot the profile is saved in. */
module UserContext {
  import opened Types
  import opened Seqs

  /** The guest profile `INITIAL_USER`; its join date is the time the module was loaded. */
  function InitialUser(loadTime: int): (u: UserProfile)
    ensures u.id == 0 && u.name == "Guest User" && u.hobbies == []
    ensures !u.active && u.role == Free && u.privacy == Public && u.bio.None?
    ensures u.following == Some([]) && u.followers == Some([]) && u.blockedUsers == Some([])
  {
    UserProfile(
      0, "Guest User", "https://i.pravatar.cc/150?img=0", None,
      UserLocation(40.7128, -74.006, None, None),
      [], Public, false, Free, loadTime, None, None,
      Some([]), Some([]), Some([]), None, Some(0), Some(0), None,
      Some(NotificationPreferences(true, true, true, true, true)))
  }

  /** The profile `login` installs, built at time `now`. */
  function DemoUser(now: int): (u: UserProfile)
    ensures u.id == 1 && u.hobbies == ["Photography", "Hiking", "Painting"]
    ensures !u.active && u.role == Free && u.privacy == Public
    ensures u.following == Some([]) && u.blockedUsers == Some([])
  {
    UserProfile(
      1, "Demo User", "https://i.pravatar.cc/150?img=11",
      Some("I love trying new hobbies and meeting interesting people!"),
      UserLocation(40.7128, -74.006, None, Some("New York, NY")),
      ["Photography", "Hiking", "Painting"], Public, false, Free, now,
      Some("demo@example.com"), None,
      Some([]), Some([]), Some([]), None, Some(3), Some(8), Some(now),
      Some(NotificationPreferences(true, true, true, true, true)))
  }

  /** The two notifications `login` seeds: a meetup notice now and a follow a day earlier. */
  function SeedNotifications(now: int): (ns: seq<Notification>)
    ensures |ns| == 2 && ns[0].id == 1 && ns[1].id == 2
    ensures forall i :: 0 <= i < |ns| ==> !ns[i].isRead && ns[i].userId == DemoUser(now).id
  {
    [ Notification(1, 1, MeetupType, "New meetup nearby!",
                   "There's a new Photography meetup in your area", Some(123), false, now),
      Notification(2, 1, FollowType, "New follower",
                   "Sarah started following you", Some(456), false, now - 86400000) ]
  }

  /** The id list after `followUser(id)` or the first step of `blockUser(id)`: an absent list
      becomes `[id]`, a list without `id` gets it appended, a list holding it is unchanged. */
  function AddId(ids: Option<seq<int>>, id: int): (r: Option<seq<int>>)
    ensures r.Some? && id in r.value
    ensures forall x :: x in Members(r) <==> x == id || x in Members(ids)
    ensures Members(ids) <= Members(r) && |Members(r)| <= |Members(ids)| + 1
    ensures id in Members(ids) ==> r == ids
    ensures NoDup(Members(ids)) ==> NoDup(Members(r))
  {
    if ids.None? then Some([id])
    else if id !in ids.value then Some(ids.value + [id])
    else ids
  }

  /** The id list after `unfollowUser(id)` or `unblockUser(id)`: every occurrence of `id`
      removed, and nothing at all changed when `id` is not there. */
  function RemoveId(ids: Option<seq<int>>, id: int): (r: Option<seq<int>>)
    ensures id !in Members(r)
    ensures forall x :: x in Members(r) <==> x in Members(ids) && x != id
    ensures IsSubseq(Members(r), Members(ids))
    ensures id !in Members(ids) ==> r == ids
    ensures NoDup(Members(ids)) ==> NoDup(Members(r))
  {
    if ids.Some? && id in ids.value then
      RemoveAllIsSubseq(ids.value, id);
      RemoveAllKeepsNoDup(ids.value, id);
      Some(RemoveAll(ids.value, id))
    else
      SubseqRefl(Members(ids));
      ids
  }

  lemma AddIdIdempotent(ids: Option<seq<int>>, id: int)
    ensures AddId(AddId(ids, id), id) == AddId(ids, id)
  {
  }

  lemma RemoveIdIdempotent(ids: Option<seq<int>>, id: int)
    ensures RemoveId(RemoveId(ids, id), id) == RemoveId(ids, id)
  {
  }

  /** The profile after `blockUser(id)`: blocked, and unfollowed whatever the follow state was. */
  function Blocked(u: UserProfile, id: int): (v: UserProfile)
    ensures id in Members(v.blockedUsers) && id !in Members(v.following)
    ensures forall x :: x != id ==> (x in Members(v.following) <==> x in Members(u.following))
    ensures forall x :: x != id ==> (x in Members(v.blockedUsers) <==> x in Members(u.blockedUsers))
    ensures v.(following := u.following, blockedUsers := u.blockedUsers) == u
  {
    var b := u.(blockedUsers := AddId(u.blockedUsers, id));
    b.(following := RemoveId(b.following, id))
  }

  /** Blocking establishes that `id` is not followed, but following is not barred afterwards:
      `followUser` never consults `blockedUsers`. */
  lemma FollowAfterBlockKeepsBoth(u: UserProfile, id: int)
    ensures var v := Blocked(u, id);
      var w := v.(following := AddId(v.following, id));
      id in Members(w.blockedUsers) && id in Members(w.following)
  {
  }

  /** Two notifications agree on everything except, possibly, the read flag. */
  predicate SameButRead(a: Notification, b: Notification) {
    a.(isRead := false) == b.(isRead := false)
  }

  /** `markNotificationAsRead(id)`: the map that sets `isRead` on the notifications with that id. */
  function MarkAsRead(ns: seq<Notification>, id: int): (r: seq<Notification>)
    ensures |r| == |ns|
    ensures forall i :: 0 <= i < |ns| ==> (r[i].isRead <==> ns[i].isRead || ns[i].id == id)
    ensures forall i :: 0 <= i < |ns| ==> SameButRead(r[i], ns[i])
    ensures (forall i :: 0 <= i < |ns| ==> ns[i].id != id) ==> r == ns
  {
    seq(|ns|, i requires 0 <= i < |ns| => if ns[i].id == id then ns[i].(isRead := true) else ns[i])
  }

  lemma MarkAsReadIdempotent(ns: seq<Notification>, id: int)
    ensures MarkAsRead(MarkAsRead(ns, id), id) == MarkAsRead(ns, id)
  {
  }

  /** The fields an `updateProfile` call supplies. A field of the profile that is optional in
      the source can be supplied as absent, hence the nested `Option`. */
  datatype ProfilePatch = ProfilePatch(
    id: Option<int>,
    name: Option<string>,
    avatar: Option<string>,
    bio: Option<Option<string>>,
    location: Option<UserLocation>,
    hobbies: Option<seq<string>>,
    privacy: Option<PrivacyLevel>,
    active: Option<bool>,
    role: Option<UserRole>,
    joinDate: Option<int>,
    email: Option<Option<string>>,
    phone: Option<Option<string>>,
    following: Option<Option<seq<int>>>,
    followers: Option<Option<seq<int>>>,
    blockedUsers: Option<Option<seq<int>>>,
    reviews: Option<Option<seq<UserReview>>>,
    meetupsHosted: Option<Option<int>>,
    meetupsJoined: Option<Option<int>>,
    lastActive: Option<Option<int>>,
    notificationPreferences: Option<Option<NotificationPreferences>>)

  const NO_CHANGES := ProfilePatch(None, None, None, None, None, None, None, None, None, None,
                                   None, None, None, None, None, None, None, None, None, None)

  /** The patch the profile editor saves: name, bio and privacy. */
  function EditPatch(name: string, bio: string, privacy: PrivacyLevel): ProfilePatch {
    NO_CHANGES.(name := Some(name), bio := Some(Some(bio)), privacy := Some(privacy))
  }

  /** The patch that supplies every field of `u`, each with the value `u` holds. */
  function Full(u: UserProfile): ProfilePatch {
    ProfilePatch(
      Some(u.id), Some(u.name), Some(u.avatar), Some(u.bio), Some(u.location), Some(u.hobbies),
      Some(u.privacy), Some(u.active), Some(u.role), Some(u.joinDate), Some(u.email), Some(u.phone),
      Some(u.following), Some(u.followers), Some(u.blockedUsers), Some(u.reviews),
      Some(u.meetupsHosted), Some(u.meetupsJoined), Some(u.lastActive), Some(u.notificationPreferences))
  }

  /** `{ ...u, ...p }`: every supplied field overwritten, every other field kept. Spreading a
      patch over a profile is the same as laying that patch over the profile's own fields. */
  function Merge(u: UserProfile, p: ProfilePatch): (r: UserProfile)
    ensures Full(r) == Then(Full(u), p)
    ensures p == NO_CHANGES ==> r == u
  {
    UserProfile(
      p.id.GetOr(u.id), p.name.GetOr(u.name), p.avatar.GetOr(u.avatar), p.bio.GetOr(u.bio),
      p.location.GetOr(u.location), p.hobbies.GetOr(u.hobbies), p.privacy.GetOr(u.privacy),
      p.active.GetOr(u.active), p.role.GetOr(u.role), p.joinDate.GetOr(u.joinDate),
      p.email.GetOr(u.email), p.phone.GetOr(u.phone), p.following.GetOr(u.following),
      p.followers.GetOr(u.followers), p.blockedUsers.GetOr(u.blockedUsers),
      p.reviews.GetOr(u.reviews), p.meetupsHosted.GetOr(u.meetupsHosted),
      p.meetupsJoined.GetOr(u.meetupsJoined), p.lastActive.GetOr(u.lastActive),
      p.notificationPreferences.GetOr(u.notificationPreferences))
  }

  /** `{ ...p, ...q }` on two patches: the later one wins where both supply a field. */
  function Then(p: ProfilePatch, q: ProfilePatch): ProfilePatch {
    ProfilePatch(
      if q.id.Some? then q.id else p.id, if q.name.Some? then q.name else p.name,
      if q.avatar.Some? then q.avatar else p.avatar, if q.bio.Some? then q.bio else p.bio,
      if q.location.Some? then q.location else p.location,
      if q.hobbies.Some? then q.hobbies else p.hobbies,
      if q.privacy.Some? then q.privacy else p.privacy,
      if q.active.Some? then q.active else p.active, if q.role.Some? then q.role else p.role,
      if q.joinDate.Some? then q.joinDate else p.joinDate,
      if q.email.Some? then q.email else p.email, if q.phone.Some? then q.phone else p.phone,
      if q.following.Some? then q.following else p.following,
      if q.followers.Some? then q.followers else p.followers,
      if q.blockedUsers.Some? then q.blockedUsers else p.blockedUsers,
      if q.reviews.Some? then q.reviews else p.reviews,
      if q.meetupsHosted.Some? then q.meetupsHosted else p.meetupsHosted,
      if q.meetupsJoined.Some? then q.meetupsJoined else p.meetupsJoined,
      if q.lastActive.Some? then q.lastActive else p.lastActive,
      if q.notificationPreferences.Some? then q.notificationPreferences else p.notificationPreferences)
  }

  /** A patch that supplies nothing changes nothing; applying a patch twice is applying it once;
      two patches in a row are one combined patch. */
  lemma MergeLaws(u: UserProfile, p: ProfilePatch, q: ProfilePatch)
    ensures Merge(u, NO_CHANGES) == u
    ensures Merge(Merge(u, p), p) == Merge(u, p)
    ensures Merge(Merge(u, p), q) == Merge(u, Then(p, q))
  {
  }

  /** The editor's patch changes name, bio and privacy and nothing else. */
  lemma EditPatchTouchesThreeFields(u: UserProfile, name: string, bio: string, privacy: PrivacyLevel)
    ensures var v := Merge(u, EditPatch(name, bio, privacy));
      v.name == name && v.bio == Some(bio) && v.privacy == privacy &&
      v.(name := u.name, bio := u.bio, privacy := u.privacy) == u
  {
  }

  /** What the browser's storage slot holds: nothing (or an empty string), text that does not
      parse, or a saved profile. */
  datatype StoredUser = NothingStored | Unparseable | Stored(profile: UserProfile)

  /** The audit record `reportUser` emits. */
  datatype Report = Report(userId: int, reason: string, description: string)

  class UserStore {
    /** `INITIAL_USER`, fixed when the module is loaded. */
    const guest: UserProfile
    var currentUser: UserProfile
    var isAuthenticated: bool
    var notifications: seq<Notification>
    var savedSlot: StoredUser

    /** The save effect has run: the slot holds the profile while authenticated and is empty
        otherwise. */
    predicate Persisted()
      reads this
    {
      savedSlot == if isAuthenticated then Stored(currentUser) else NothingStored
    }

    /** Start-up: the store begins as guest, adopts a saved profile verbatim when the slot holds
        one that parses, and then runs the save effect. */
    constructor Boot(loadTime: int, stored: StoredUser)
      ensures guest == InitialUser(loadTime)
      ensures stored.Stored? ==> currentUser == stored.profile && isAuthenticated
      ensures !stored.Stored? ==> currentUser == guest && !isAuthenticated
      ensures notifications == []
      ensures Persisted()
    {
      guest := InitialUser(loadTime);
      currentUser := InitialUser(loadTime);
      isAuthenticated := false;
      notifications := [];
      savedSlot := stored;
      new;
      LoadSaved();
      Persist();
    }

    /** The load effect: a parsable saved profile is adopted and the user counts as signed in;
        anything else leaves the guest in place. */
    method LoadSaved()
      modifies this`currentUser, this`isAuthenticated
      ensures savedSlot.Stored? ==> currentUser == savedSlot.profile && isAuthenticated
      ensures !savedSlot.Stored? ==> currentUser == old(currentUser) && isAuthenticated == old(isAuthenticated)
    {
      if savedSlot.Stored? {
        currentUser := savedSlot.profile;
        isAuthenticated := true;
      }
    }

    /** The save effect. */
    method Persist()
      modifies this`savedSlot
      ensures Persisted()
    {
      savedSlot := if isAuthenticated then Stored(currentUser) else NothingStored;
    }

    method SetCurrentUser(u: UserProfile)
      modifies this
      ensures currentUser == u
      ensures isAuthenticated == old(isAuthenticated) && notifications == old(notifications)
      ensures Persisted()
    {
      currentUser := u;
      Persist();
    }

    /** Replaces the hobby list wholesale; no deduplication. */
    method UpdateUserHobbies(hobbies: seq<string>)
      modifies this
      ensures currentUser == old(currentUser).(hobbies := hobbies)
      ensures isAuthenticated == old(isAuthenticated) && notifications == old(notifications)
      ensures Persisted()
    {
      currentUser := currentUser.(hobbies := hobbies);
      Persist();
    }

    method ToggleActiveStatus()
      modifies this
      ensures currentUser == old(currentUser).(active := !old(currentUser.active))
      ensures isAuthenticated == old(isAuthenticated) && notifications == old(notifications)
      ensures Persisted()
    {
      currentUser := currentUser.(active := !currentUser.active);
      Persist();
    }

    method UpdatePrivacy(privacy: PrivacyLevel)
      modifies this
      ensures currentUser == old(currentUser).(privacy := privacy)
      ensures isAuthenticated == old(isAuthenticated) && notifications == old(notifications)
      ensures Persisted()
    {
      currentUser := currentUser.(privacy := privacy);
      Persist();
    }

    method UpgradeUserRole(role: UserRole)
      modifies this
      ensures currentUser == old(currentUser).(role := role)
      ensures isAuthenticated == old(isAuthenticated) && notifications == old(notifications)
      ensures Persisted()
    {
      currentUser := currentUser.(role := role);
      Persist();
    }

    method FollowUser(id: int)
      modifies this
      ensures currentUser == old(currentUser).(following := AddId(old(currentUser.following), id))
      ensures isAuthenticated == old(isAuthenticated) && notifications == old(notifications)
      ensures Persisted()
    {
      if currentUser.following.None? {
        currentUser := currentUser.(following := Some([id]));
      } else if id !in currentUser.following.value {
        currentUser := currentUser.(following := Some(currentUser.following.value + [id]));
      }
      Persist();
    }

    method UnfollowUser(id: int)
      modifies this
      ensures currentUser == old(currentUser).(following := RemoveId(old(currentUser.following), id))
      ensures isAuthenticated == old(isAuthenticated) && notifications == old(notifications)
      ensures Persisted()
    {
      if currentUser.following.Some? && id in currentUser.following.value {
        currentUser := currentUser.(following := Some(RemoveAll(currentUser.following.value, id)));
      }
      Persist();
    }

    method BlockUser(id: int)
      modifies this
      ensures currentUser == Blocked(old(currentUser), id)
      ensures isAuthenticated == old(isAuthenticated) && notifications == old(notifications)
      ensures Persisted()
    {
      if currentUser.blockedUsers.None? {
        currentUser := currentUser.(blockedUsers := Some([id]));
      } else if id !in currentUser.blockedUsers.value {
        currentUser := currentUser.(blockedUsers := Some(currentUser.blockedUsers.value + [id]));
      }
      Persist();
      UnfollowUser(id);
    }

    method UnblockUser(id: int)
      modifies this
      ensures currentUser == old(currentUser).(blockedUsers := RemoveId(old(currentUser.blockedUsers), id))
      ensures isAuthenticated == old(isAuthenticated) && notifications == old(notifications)
      ensures Persisted()
    {
      if currentUser.blockedUsers.Some? && id in currentUser.blockedUsers.value {
        currentUser := currentUser.(blockedUsers := Some(RemoveAll(currentUser.blockedUsers.value, id)));
      }
      Persist();
    }

    /** Fire-and-forget: the report is only emitted, no state changes. */
    method ReportUser(userId: int, reason: string, description: string) returns (emitted: Report)
      ensures emitted == Report(userId, reason, description)
    {
      emitted := Report(userId, reason, description);
    }

    method UpdateProfile(patch: ProfilePatch)
      modifies this
      ensures currentUser == Merge(old(currentUser), patch)
      ensures isAuthenticated == old(isAuthenticated) && notifications == old(notifications)
      ensures Persisted()
    {
      currentUser := Merge(currentUser, patch);
      Persist();
    }

    method GetNotifications() returns (ns: seq<Notification>)
      ensures ns == notifications
    {
      ns := notifications;
    }

    method MarkNotificationAsRead(id: int)
      modifies this
      ensures notifications == MarkAsRead(old(notifications), id)
      ensures currentUser == old(currentUser) && isAuthenticated == old(isAuthenticated)
      ensures savedSlot == old(savedSlot)
    {
      notifications := MarkAsRead(notifications, id);
    }

    /** Fire-and-forget: always reports success. */
    method SendMessage(receiverId: int, content: string) returns (ok: bool)
      ensures ok
    {
      ok := true;
    }

    /** Mock sign-in: any credentials succeed. */
    method Login(now: int) returns (ok: bool)
      modifies this
      ensures ok && isAuthenticated
      ensures currentUser == DemoUser(now) && notifications == SeedNotifications(now)
      ensures Persisted()
    {
      currentUser := DemoUser(now);
      isAuthenticated := true;
      notifications := SeedNotifications(now);
      Persist();
      ok := true;
    }

    method Logout()
      modifies this
      ensures currentUser == guest && !isAuthenticated && notifications == []
      ensures savedSlot == NothingStored && Persisted()
    {
      currentUser := guest;
      isAuthenticated := false;
      notifications := [];
      Persist();
    }
  }
}
