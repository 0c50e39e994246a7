/** The meetup service: three mock meetups fixed when the module loads, and the query,
    create and RSVP calls that answer from them. */
module MeetupService {
  import opened Types
  import opened Seqs

  /** The longer texts of the mock meetups. */
  const WALK_TITLE: string := "Photography Walk in Central Park"
  const WALK_DESCRIPTION: string := "Join us for a casual photography session in Central Park. All skill levels welcome!"
  const WALK_ADDRESS: string := "Central Park, New York, NY"
  const GAMES_DESCRIPTION: string := "Weekly board game meetup. We have various games but feel free to bring your own!"
  const GAMES_ADDRESS: string := "The Board Room Cafe, 234 Main St, New York, NY"
  const PAINTING_DESCRIPTION: string := "Drop-in painting session happening now! Bring your supplies and join us."
  const PAINTING_ADDRESS: string := "Washington Square Park, New York, NY"

  /** The first entry of `MOCK_MEETUPS`: a scheduled photography walk a day after loading. */
  function PhotographyWalk(loadTime: int): Meetup
  {
    Meetup(1, WALK_TITLE, WALK_DESCRIPTION,
           1, None, None, MeetupLocation(40.785091, -73.968285, Some(WALK_ADDRESS)),
           ["Photography", "Hiking"], loadTime + 86400000, None, false, Some(10), [1, 2, 3], None,
           PublicMeetup, loadTime, None, None, None, None)
  }

  /** The second entry: a board game night two days after loading. */
  function BoardGameNight(loadTime: int): Meetup
  {
    Meetup(2, "Board Game Night", GAMES_DESCRIPTION,
           2, None, None, MeetupLocation(40.7112, -74.013, Some(GAMES_ADDRESS)),
           ["Board Games", "Gaming"], loadTime + 172800000, None, false, Some(15), [2, 4, 5], None,
           PublicMeetup, loadTime, None, None, None, None)
  }

  /** The third entry: a real-time painting session starting when the module loads. */
  function PaintingInThePark(loadTime: int): Meetup
  {
    Meetup(3, "Painting in the Park", PAINTING_DESCRIPTION,
           3, None, None, MeetupLocation(40.7135, -73.9940, Some(PAINTING_ADDRESS)),
           ["Painting", "Drawing"], loadTime, None, true, None, [3, 1], None,
           PublicMeetup, loadTime, None, None, None, None)
  }

  /** `MOCK_MEETUPS`; `loadTime` is the clock reading when the module was loaded. */
  function MockMeetups(loadTime: int): (ms: seq<Meetup>)
    ensures |ms| == 3 && ms[0].id == 1 && ms[1].id == 2 && ms[2].id == 3
    ensures forall k :: 0 <= k < |ms| ==> ms[k].id == k + 1
  {
    [PhotographyWalk(loadTime), BoardGameNight(loadTime), PaintingInThePark(loadTime)]
  }

  /** The mock data is consistent: each host attends, no cap is exceeded, the real-time meetup
      has no end time. */
  lemma MockMeetupsConsistent(loadTime: int)
    ensures var ms := MockMeetups(loadTime);
      forall k :: 0 <= k < |ms| ==>
        ms[k].hostId in ms[k].attendees &&
        (ms[k].maxAttendees.Some? ==> |ms[k].attendees| <= ms[k].maxAttendees.value) &&
        (ms[k].isRealTime ==> ms[k].endTime.None?)
  {
  }

  /** A meetup is returned exactly when one of its hobbies is in the filter; the result keeps
      the order of `ms`. */
  function MatchingMeetups(ms: seq<Meetup>, hobbies: seq<string>): (r: seq<Meetup>)
    ensures forall m :: m in r <==> m in ms && SharesAny(m.hobbies, hobbies)
    ensures IsSubseq(r, ms)
  {
    if ms == [] then []
    else
      var rest := MatchingMeetups(ms[1..], hobbies);
      if SharesAny(ms[0].hobbies, hobbies) then
        assert ([ms[0]] + rest)[1..] == rest;
        [ms[0]] + rest
      else
        rest
  }

  /** `getMeetupsByHobbies`: everything for an empty filter, otherwise OR-matching. */
  function GetMeetupsByHobbies(loadTime: int, hobbies: seq<string>): (r: seq<Meetup>)
    ensures hobbies == [] ==> r == MockMeetups(loadTime)
    ensures hobbies != [] ==> forall m :: m in r <==> m in MockMeetups(loadTime) && SharesAny(m.hobbies, hobbies)
    ensures IsSubseq(r, MockMeetups(loadTime))
  {
    if |hobbies| == 0 then
      SubseqRefl(MockMeetups(loadTime));
      MockMeetups(loadTime)
    else MatchingMeetups(MockMeetups(loadTime), hobbies)
  }

  /** The meetups found depend on the filter only through its members: neither order nor
      repetition in the filter matters. */
  lemma {:induction false} MatchingMeetupsByMembers(ms: seq<Meetup>, f: seq<string>, g: seq<string>)
    requires forall h :: h in f <==> h in g
    ensures MatchingMeetups(ms, f) == MatchingMeetups(ms, g)
  {
    if ms != [] {
      MatchingMeetupsByMembers(ms[1..], f, g);
      assert SharesAny(ms[0].hobbies, f) == SharesAny(ms[0].hobbies, g);
    }
  }

  /** `getMeetupsByLocation`: the whole mock list; the position and radius are not consulted. */
  function GetMeetupsByLocation(loadTime: int, lat: real, lng: real, radiusKm: real := 10.0): (r: seq<Meetup>)
    ensures r == MockMeetups(loadTime)
  {
    MockMeetups(loadTime)
  }

  /** What `createMeetup` is given: a meetup without id and creation time. */
  datatype MeetupDraft = MeetupDraft(
    title: string,
    description: string,
    hostId: int,
    hostName: Option<string>,
    hostAvatar: Option<string>,
    location: MeetupLocation,
    hobbies: seq<string>,
    startTime: int,
    endTime: Option<int>,
    isRealTime: bool,
    maxAttendees: Option<int>,
    attendees: seq<int>,
    attendeeProfiles: Option<seq<AttendeeProfile>>,
    privacy: MeetupPrivacy,
    price: Option<real>,
    isPremium: Option<bool>,
    reviews: Option<seq<UserReview>>,
    averageRating: Option<real>)

  /** The draft a meetup was made from. */
  function DraftOf(m: Meetup): MeetupDraft {
    MeetupDraft(m.title, m.description, m.hostId, m.hostName, m.hostAvatar, m.location, m.hobbies,
                m.startTime, m.endTime, m.isRealTime, m.maxAttendees, m.attendees, m.attendeeProfiles,
                m.privacy, m.price, m.isPremium, m.reviews, m.averageRating)
  }

  /** `createMeetup` at time `now`: every supplied field copied, the id one past the number of
      mock meetups, which no mock meetup uses. */
  function CreateMeetup(loadTime: int, d: MeetupDraft, now: int): (m: Meetup)
    ensures DraftOf(m) == d
    ensures m.id == |MockMeetups(loadTime)| + 1 && m.createdAt == now
    ensures forall k :: 0 <= k < |MockMeetups(loadTime)| ==> MockMeetups(loadTime)[k].id != m.id
  {
    Meetup(|MockMeetups(loadTime)| + 1, d.title, d.description, d.hostId, d.hostName, d.hostAvatar,
           d.location, d.hobbies, d.startTime, d.endTime, d.isRealTime, d.maxAttendees, d.attendees,
           d.attendeeProfiles, d.privacy, now, d.price, d.isPremium, d.reviews, d.averageRating)
  }

  /** The id is not unique across calls: any two meetups created get the same id. */
  lemma CreatedIdsCollide(loadTime: int, d1: MeetupDraft, t1: int, d2: MeetupDraft, t2: int)
    ensures CreateMeetup(loadTime, d1, t1).id == CreateMeetup(loadTime, d2, t2).id == 4
  {
  }

  /** `rsvpToMeetup`: always succeeds; nothing is recorded, so no attendee list changes. */
  function RsvpToMeetup(meetupId: int, userId: int): (ok: bool)
    ensures ok
  {
    true
  }
}
