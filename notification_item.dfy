/** One row of the notification list: its icon, its relative time label and its unread marks.
    Times are whole milliseconds; the current time is a parameter. */
module NotificationItem {
  import opened Types

  const MINUTE_MS: int := 60000
  const HOUR_MS: int := 3600000
  const DAY_MS: int := 86400000
  const WEEK_MS: int := 604800000

  /** The label `formatTime` produces. The calendar date of an older notification is rendered
      by the browser's locale formatting, so only its timestamp is kept. */
  datatype TimeLabel = JustNow | MinutesAgo(minutes: int) | HoursAgo(hours: int) | DaysAgo(days: int)
                     | CalendarDate(date: int)

  /** `formatTime(createdAt)` read at time `now`. `Math.floor` of a quotient by a positive
      constant is Dafny's `/`, also for a negative difference. */
  function FormatTime(now: int, createdAt: int): (r: TimeLabel)
    ensures var diff := now - createdAt;
      (r == JustNow <==> diff < MINUTE_MS) &&
      (r.MinutesAgo? <==> MINUTE_MS <= diff < HOUR_MS) &&
      (r.HoursAgo? <==> HOUR_MS <= diff < DAY_MS) &&
      (r.DaysAgo? <==> DAY_MS <= diff < WEEK_MS) &&
      (r.CalendarDate? <==> WEEK_MS <= diff)
    ensures r.MinutesAgo? ==> 1 <= r.minutes <= 59 && r.minutes * MINUTE_MS <= now - createdAt < (r.minutes + 1) * MINUTE_MS
    ensures r.HoursAgo? ==> 1 <= r.hours <= 23 && r.hours * HOUR_MS <= now - createdAt < (r.hours + 1) * HOUR_MS
    ensures r.DaysAgo? ==> 1 <= r.days <= 6 && r.days * DAY_MS <= now - createdAt < (r.days + 1) * DAY_MS
    ensures r.CalendarDate? ==> r.date == createdAt
  {
    var diff := now - createdAt;
    if diff < DAY_MS then
      var hours := diff / HOUR_MS;
      if hours < 1 then
        var minutes := diff / MINUTE_MS;
        if minutes < 1 then JustNow else MinutesAgo(minutes)
      else
        HoursAgo(hours)
    else if diff < WEEK_MS then
      DaysAgo(diff / DAY_MS)
    else
      CalendarDate(createdAt)
  }

  /** The buckets in the order a notification passes through them as it ages. */
  function Stage(l: TimeLabel): (k: nat)
    ensures k <= 4
  {
    match l
    case JustNow => 0
    case MinutesAgo(_) => 1
    case HoursAgo(_) => 2
    case DaysAgo(_) => 3
    case CalendarDate(_) => 4
  }

  /** As time passes a label never returns to an earlier bucket, and within a bucket its count
      never goes down. */
  lemma FormatTimeMonotone(now1: int, now2: int, createdAt: int)
    requires now1 <= now2
    ensures var a, b := FormatTime(now1, createdAt), FormatTime(now2, createdAt);
      Stage(a) <= Stage(b) &&
      (a.MinutesAgo? && b.MinutesAgo? ==> a.minutes <= b.minutes) &&
      (a.HoursAgo? && b.HoursAgo? ==> a.hours <= b.hours) &&
      (a.DaysAgo? && b.DaysAgo? ==> a.days <= b.days)
  {
  }

  function DigitChar(d: int): char
    requires 0 <= d < 10
  {
    ('0' as int + d) as char
  }

  /** A count written out in decimal, as a template literal does. */
  function NatToString(n: nat): (s: string)
    ensures |s| >= 1 && forall i :: 0 <= i < |s| ==> '0' <= s[i] <= '9'
    ensures |s| == 1 <==> n < 10
    ensures |s| == 1 || s[0] != '0'
    decreases n
  {
    if n < 10 then [DigitChar(n)] else NatToString(n / 10) + [DigitChar(n % 10)]
  }

  /** The value of a string of decimal digits. */
  function DigitsValue(s: string): nat
    requires forall i :: 0 <= i < |s| ==> '0' <= s[i] <= '9'
  {
    if s == [] then 0 else DigitsValue(s[..|s| - 1]) * 10 + (s[|s| - 1] as int - '0' as int)
  }

  /** Reading the decimal text back gives the count. */
  lemma {:induction false} NatToStringValue(n: nat)
    ensures DigitsValue(NatToString(n)) == n
    decreases n
  {
    if n >= 10 {
      NatToStringValue(n / 10);
      var s := NatToString(n);
      assert s[..|s| - 1] == NatToString(n / 10);
    }
  }

  /** `text` is a count written in decimal followed by `unit`, and the digits read back as `n`. */
  predicate SaysCount(text: string, n: int, unit: string) {
    |unit| < |text| && text[|text| - |unit|..] == unit &&
    (forall i :: 0 <= i < |text| - |unit| ==> '0' <= text[i] <= '9') &&
    DigitsValue(text[..|text| - |unit|]) == n
  }

  /** The count written out in front of `unit` says that count. */
  lemma CountTextSaysCount(n: nat, unit: string)
    requires unit != []
    ensures SaysCount(NatToString(n) + unit, n, unit)
  {
    NatToStringValue(n);
    var text := NatToString(n) + unit;
    assert text[..|text| - |unit|] == NatToString(n);
    assert text[|text| - |unit|..] == unit;
  }

  /** The text of a label; the calendar date is the locale's business and is left as is. A
      count label reads as its count followed by its unit. */
  function LabelText(l: TimeLabel): (r: Option<string>)
    ensures l.JustNow? ==> r == Some("Just now")
    ensures l.CalendarDate? ==> r.None?
    ensures l.MinutesAgo? ==> (r.Some? <==> l.minutes >= 0) && (r.Some? ==> SaysCount(r.value, l.minutes, "m ago"))
    ensures l.HoursAgo? ==> (r.Some? <==> l.hours >= 0) && (r.Some? ==> SaysCount(r.value, l.hours, "h ago"))
    ensures l.DaysAgo? ==> (r.Some? <==> l.days >= 0) && (r.Some? ==> SaysCount(r.value, l.days, "d ago"))
  {
    match l
    case JustNow => Some("Just now")
    case MinutesAgo(m) => if m >= 0 then CountTextSaysCount(m, "m ago"); Some(NatToString(m) + "m ago") else None
    case HoursAgo(h) => if h >= 0 then CountTextSaysCount(h, "h ago"); Some(NatToString(h) + "h ago") else None
    case DaysAgo(d) => if d >= 0 then CountTextSaysCount(d, "d ago"); Some(NatToString(d) + "d ago") else None
    case CalendarDate(_) => None
  }

  /** Every label of a notification under a week old has a text, and it ends in the unit of
      its bucket. */
  lemma LabelTextOfRecent(now: int, createdAt: int)
    requires now - createdAt < WEEK_MS
    ensures var l := FormatTime(now, createdAt);
      var t := LabelText(l);
      t.Some? &&
      (l.MinutesAgo? ==> t.value == NatToString(l.minutes) + "m ago") &&
      (l.HoursAgo? ==> t.value == NatToString(l.hours) + "h ago") &&
      (l.DaysAgo? ==> t.value == NatToString(l.days) + "d ago")
  {
  }

  datatype Icon = MessageSquare | Calendar | UserPlus | AlertCircle | Bell

  /** `getIcon`: one icon per known type, the bell for every other type. */
  function GetIcon(t: NotificationType): (i: Icon)
    ensures i == Bell <==> t == ReminderType
  {
    match t
    case MessageType => MessageSquare
    case MeetupType => Calendar
    case FollowType => UserPlus
    case SystemType => AlertCircle
    case _ => Bell
  }

  /** No two notification types share an icon. */
  lemma GetIconInjective(a: NotificationType, b: NotificationType)
    ensures GetIcon(a) == GetIcon(b) ==> a == b
  {
  }

  /** What a row shows besides its texts. */
  datatype ItemView = ItemView(highlighted: bool, iconHighlighted: bool, unreadDot: bool, icon: Icon,
                               time: TimeLabel)

  /** The row for a notification: background, icon circle and dot mark it exactly while unread. */
  function View(n: Notification, now: int): (v: ItemView)
    ensures v.unreadDot <==> !n.isRead
    ensures v.highlighted == v.unreadDot && v.iconHighlighted == v.unreadDot
    ensures v.icon == Bell <==> n.kind == ReminderType
    ensures v.time.CalendarDate? <==> now - n.createdAt >= WEEK_MS
  {
    ItemView(!n.isRead, !n.isRead, !n.isRead, GetIcon(n.kind), FormatTime(now, n.createdAt))
  }
}
