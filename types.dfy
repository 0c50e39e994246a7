/** The domain records of the session store and the discovery views. Dates are whole
    milliseconds since the epoch; coordinates, prices and ratings are reals. Every string
    union of the source is a datatype, with the tag it carries in the source and a parser
    back from that tag. */
module Types {

  datatype Option<T> = None | Some(value: T) {
    function GetOr(default: T): T {
      if Some? then value else default
    }
  }

  datatype PrivacyLevel = Public | HobbyOnly | Anonymous

  function PrivacyTag(p: PrivacyLevel): string {
    match p
    case Public => "public"
    case HobbyOnly => "hobby-only"
    case Anonymous => "anonymous"
  }

  /** A string names a privacy level exactly when it is one of the three tags. */
  function ParsePrivacy(s: string): (r: Option<PrivacyLevel>)
    ensures forall p :: r == Some(p) <==> s == PrivacyTag(p)
  {
    if s == "public" then Some(Public)
    else if s == "hobby-only" then Some(HobbyOnly)
    else if s == "anonymous" then Some(Anonymous)
    else None
  }

  datatype UserRole = Free | Premium

  function RoleTag(r: UserRole): string {
    match r
    case Free => "free"
    case Premium => "premium"
  }

  function ParseRole(s: string): (r: Option<UserRole>)
    ensures forall q :: r == Some(q) <==> s == RoleTag(q)
  {
    if s == "free" then Some(Free)
    else if s == "premium" then Some(Premium)
    else None
  }

  datatype NotificationType = MessageType | FollowType | MeetupType | ReminderType | SystemType

  function NotificationTypeTag(t: NotificationType): string {
    match t
    case MessageType => "message"
    case FollowType => "follow"
    case MeetupType => "meetup"
    case ReminderType => "reminder"
    case SystemType => "system"
  }

  function ParseNotificationType(s: string): (r: Option<NotificationType>)
    ensures forall t :: r == Some(t) <==> s == NotificationTypeTag(t)
  {
    if s == "message" then Some(MessageType)
    else if s == "follow" then Some(FollowType)
    else if s == "meetup" then Some(MeetupType)
    else if s == "reminder" then Some(ReminderType)
    else if s == "system" then Some(SystemType)
    else None
  }

  datatype MeetupPrivacy = PublicMeetup | PrivateMeetup | InviteOnly

  function MeetupPrivacyTag(p: MeetupPrivacy): string {
    match p
    case PublicMeetup => "public"
    case PrivateMeetup => "private"
    case InviteOnly => "invite-only"
  }

  function ParseMeetupPrivacy(s: string): (r: Option<MeetupPrivacy>)
    ensures forall p :: r == Some(p) <==> s == MeetupPrivacyTag(p)
  {
    if s == "public" then Some(PublicMeetup)
    else if s == "private" then Some(PrivateMeetup)
    else if s == "invite-only" then Some(InviteOnly)
    else None
  }

  datatype UserLocation = UserLocation(lat: real, lng: real, lastUpdated: Option<int>, address: Option<string>)

  datatype UserReview = UserReview(
    id: int, reviewerId: int, reviewerName: string, targetId: int,
    rating: real, comment: string, date: int, anonymous: bool)

  datatype NotificationPreferences = NotificationPreferences(
    email: bool, push: bool, meetupReminders: bool, newMessages: bool, newFollowers: bool)

  /** The acting user's profile; an optional field of the source is an `Option`. */
  datatype UserProfile = UserProfile(
    id: int,
    name: string,
    avatar: string,
    bio: Option<string>,
    location: UserLocation,
    hobbies: seq<string>,
    privacy: PrivacyLevel,
    active: bool,
    role: UserRole,
    joinDate: int,
    email: Option<string>,
    phone: Option<string>,
    following: Option<seq<int>>,
    followers: Option<seq<int>>,
    blockedUsers: Option<seq<int>>,
    reviews: Option<seq<UserReview>>,
    meetupsHosted: Option<int>,
    meetupsJoined: Option<int>,
    lastActive: Option<int>,
    notificationPreferences: Option<NotificationPreferences>)

  datatype MeetupLocation = MeetupLocation(lat: real, lng: real, address: Option<string>)

  datatype AttendeeProfile = AttendeeProfile(id: int, name: string, avatar: string)

  datatype Meetup = Meetup(
    id: int,
    title: string,
    description: string,
    hostId: int,
    hostName: Option<string>,
    hostAvatar: Option<string>,
    location: MeetupLocation,
    hobbies: seq<string>,
    startTime: int,
    endTime: Option<int>,
    isRealTime: bool,
    maxAttendees: Option<int>,
    attendees: seq<int>,
    attendeeProfiles: Option<seq<AttendeeProfile>>,
    privacy: MeetupPrivacy,
    createdAt: int,
    price: Option<real>,
    isPremium: Option<bool>,
    reviews: Option<seq<UserReview>>,
    averageRating: Option<real>)

  /** An event directed at a user; the source's `type` field is `kind` here. */
  datatype Notification = Notification(
    id: int,
    userId: int,
    kind: NotificationType,
    title: string,
    message: string,
    relatedId: Option<int>,
    isRead: bool,
    createdAt: int)

  /** The members of an optional id list, the absent list counting as empty. */
  function Members(ids: Option<seq<int>>): seq<int> {
    if ids.Some? then ids.value else []
  }
}
