/**
 * The recent-activity feed (components/recent-activity.tsx): a collapsed view
 * of the first four activities with a "View all activity" badge, and the
 * relative time shown beside each activity.
 */
module RecentActivity {
  import opened Wrappers
  import Text
  import Seqs
  import opened PlasticTimeline

  datatype ActivityKind = Scan | StatusUpdate | RewardEarned

  datatype Activity = Activity(
    id: string,
    kind: ActivityKind,
    title: string,
    description: string,
    timestamp: string,
    status: Option<Status>)

  /** The component's sample data, `activities`. */
  const Activities: seq<Activity> := [
    Activity("1", Scan, "Plastic Bottle Scanned", "PLASTIC-QR-2025-0042", "2025-08-05T10:30:00", None),
    Activity("2", StatusUpdate, "Status Updated", "PLASTIC-QR-2025-0041", "2025-08-04T15:45:00", Some(Sorted)),
    Activity("3", RewardEarned, "Points Earned", "50 points for plastic collection", "2025-08-03T09:15:00", None),
    Activity("4", StatusUpdate, "Status Updated", "PLASTIC-QR-2025-0040", "2025-08-02T14:20:00", Some(Recycled)),
    Activity("5", Scan, "Plastic Bag Scanned", "PLASTIC-QR-2025-0039", "2025-08-01T11:10:00", None),
    Activity("6", RewardEarned, "Points Earned", "30 points for plastic collection", "2025-07-31T16:05:00", None)
  ]

  /** How many activities the collapsed feed shows. */
  const CollapsedLength := 4

  /**
   * `displayActivities`: everything when extended; otherwise the first four
   * activities, or all of them when there are fewer, in their original order.
   */
  function DisplayActivities(activities: seq<Activity>, extended: bool): (shown: seq<Activity>)
    ensures extended ==> shown == activities
    ensures !extended ==> |shown| == (if |activities| < CollapsedLength then |activities| else CollapsedLength)
    ensures shown == activities[..|shown|]
  {
    if extended then activities else Seqs.Take(activities, CollapsedLength)
  }

  /** The "View all activity" badge. */
  predicate ShowsViewAll(activities: seq<Activity>, extended: bool) {
    !extended && |activities| > CollapsedLength
  }

  /** The badge appears exactly when some activity is hidden from the feed. */
  lemma ViewAllIffSomeHidden(activities: seq<Activity>, extended: bool)
    ensures ShowsViewAll(activities, extended) <==> |DisplayActivities(activities, extended)| < |activities|
  {
  }

  /** The collapsed sample feed shows four of its six activities and offers "View all activity". */
  lemma SampleFeed()
    ensures |DisplayActivities(Activities, false)| == 4 && ShowsViewAll(Activities, false)
    ensures DisplayActivities(Activities, true) == Activities && !ShowsViewAll(Activities, true)
  {
  }

  /** The status badge: present exactly when the activity has a status, labelled with it. */
  function StatusBadge(a: Activity): (badge: Option<string>)
    ensures badge.Some? <==> a.status.Some?
    ensures a.status == Some(Sorted) ==> badge == Some("Sorted")
    ensures a.status == Some(Recycled) ==> badge == Some("Recycled")
    ensures a.status == Some(Collected) ==> badge == Some("Collected")
  {
    StatusLabels();
    if a.status.Some? then Some(StatusLabel(a.status.value)) else None
  }

  // ------------------------------------------------------------ formatTimestamp

  const MillisPerHour := 1000 * 60 * 60

  /**
   * `Math.floor((now - date) / 3600000)` on millisecond instants. Dafny's
   * division by a positive divisor rounds down, as `Math.floor` does, also
   * for a timestamp in the future.
   */
  function HoursSince(time: int, now: int): (h: int)
    ensures h * MillisPerHour <= now - time < (h + 1) * MillisPerHour
  {
    (now - time) / MillisPerHour
  }

  /** Which form `formatTimestamp` chooses. */
  datatype TimestampLabel = HoursAgo(hours: int) | LocaleDate

  function LabelFor(time: int, now: int): TimestampLabel {
    var h := HoursSince(time, now);
    if h < 24 then HoursAgo(h) else LocaleDate
  }

  /**
   * The relative form is used exactly for instants less than a day before
   * `now`, which includes every instant after `now`; "hour" is singular
   * exactly when the instant lies between one and two hours ago.
   */
  lemma RelativeWithinADay(time: int, now: int)
    ensures LabelFor(time, now).HoursAgo? <==> now - time < 24 * MillisPerHour
    ensures time > now ==> LabelFor(time, now).HoursAgo? && LabelFor(time, now).hours < 0
    ensures LabelFor(time, now) == HoursAgo(1) <==> MillisPerHour <= now - time < 2 * MillisPerHour
  {
    var h := HoursSince(time, now);
    if now - time < 24 * MillisPerHour {
      assert h < 24;
    }
  }

  /** `${h} ${h === 1 ? "hour" : "hours"} ago`. */
  function HoursAgoText(h: int): string {
    Text.IntToString(h) + " " + (if h == 1 then "hour" else "hours") + " ago"
  }

  /** The text is "1 hour ago" for one hour and never for any other count. */
  lemma SingularOnlyForOne(h: int)
    ensures HoursAgoText(h) == "1 hour ago" <==> h == 1
  {
    if h != 1 {
      assert |HoursAgoText(h)| == |Text.IntToString(h)| + 10;
    }
  }

  /**
   * `formatTimestamp(timestamp)` for a timestamp that parses to `time`, read
   * at instant `now`; `localeDate` stands for `date.toLocaleDateString()`.
   */
  function FormatTimestamp(time: int, now: int, localeDate: string): string {
    match LabelFor(time, now)
    case HoursAgo(h) => HoursAgoText(h)
    case LocaleDate => localeDate
  }

  /**
   * Within a day the timestamp reads "<h> hour(s) ago" for the floor of the
   * elapsed hours, and it reads "1 hour ago" exactly when one to two hours
   * have elapsed; from a day on it is the locale date.
   */
  lemma FormatTimestampForms(time: int, now: int, localeDate: string)
    ensures now - time < 24 * MillisPerHour ==> FormatTimestamp(time, now, localeDate) == HoursAgoText(HoursSince(time, now))
    ensures now - time >= 24 * MillisPerHour ==> FormatTimestamp(time, now, localeDate) == localeDate
    ensures now - time < 24 * MillisPerHour ==>
      (FormatTimestamp(time, now, localeDate) == "1 hour ago" <==> MillisPerHour <= now - time < 2 * MillisPerHour)
  {
    RelativeWithinADay(time, now);
    SingularOnlyForOne(HoursSince(time, now));
  }
}
