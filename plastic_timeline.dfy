/**
 * The lifecycle timeline of one plastic item (components/plastic-timeline.tsx):
 * three fixed events whose completion and dates are derived from the item's status.
 * The item type is the component's prop type; the waste-tracker page passes the
 * same records.
 */
module PlasticTimeline {
  import Text
  import Seqs

  datatype Status = Collected | Sorted | Recycled

  /** The status as the source spells it. */
  function StatusName(s: Status): string {
    match s
    case Collected => "collected"
    case Sorted => "sorted"
    case Recycled => "recycled"
  }

  /** The badge and heading text: the status name with its first letter in upper case. */
  function StatusLabel(s: Status): string {
    Text.Capitalize(StatusName(s))
  }

  lemma StatusLabels()
    ensures StatusLabel(Collected) == "Collected"
    ensures StatusLabel(Sorted) == "Sorted"
    ensures StatusLabel(Recycled) == "Recycled"
  {
  }

  /** Coordinates are never computed with here; `real` only carries the literals. */
  datatype Location = Location(lat: real, lng: real, address: string)

  datatype PlasticItem = PlasticItem(
    id: string,
    qrCode: string,
    itemType: string,
    weight: real,
    status: Status,
    collectedAt: string,
    location: Location,
    updatedAt: string)

  datatype TimelineEvent = TimelineEvent(status: Status, date: string, description: string, completed: bool)

  /** The position of a status in the lifecycle collected, sorted, recycled. */
  function Stage(s: Status): nat {
    match s
    case Collected => 0
    case Sorted => 1
    case Recycled => 2
  }

  /** The lifecycle in timeline order. */
  const Lifecycle: seq<Status> := [Collected, Sorted, Recycled]

  /**
   * The `events` array: one event per lifecycle stage, in order; the event of
   * stage k is completed exactly when the item has reached stage k, and a
   * later event carries the item's last update time once completed.
   */
  function Events(item: PlasticItem): (events: seq<TimelineEvent>)
    ensures |events| == 3
    ensures forall k :: 0 <= k < 3 ==> events[k].status == Lifecycle[k] && Stage(Lifecycle[k]) == k
    ensures forall k :: 0 <= k < 3 ==> (events[k].completed <==> k <= Stage(item.status))
    ensures events[0].date == item.collectedAt
    ensures events[0].description == "Collected at " + item.location.address
    ensures forall k :: 1 <= k < 3 ==> events[k].date == if events[k].completed then item.updatedAt else ""
  {
    var sorted := item.status == Sorted || item.status == Recycled;
    var recycled := item.status == Recycled;
    [ TimelineEvent(Collected, item.collectedAt, "Collected at " + item.location.address, true),
      TimelineEvent(Sorted, if sorted then item.updatedAt else "", "Sorted at recycling facility", sorted),
      TimelineEvent(Recycled, if recycled then item.updatedAt else "", "Recycled into new materials", recycled) ]
  }

  /** Completion is a prefix of the timeline: a completed event has only completed events before it. */
  lemma CompletionIsPrefix(item: PlasticItem, i: nat, j: nat)
    requires i <= j < 3 && Events(item)[j].completed
    ensures Events(item)[i].completed
  {
  }

  /** The number of completed events is one more than the item's stage. */
  lemma CompletedCount(item: PlasticItem)
    ensures |Seqs.Filter(Events(item), (e: TimelineEvent) => e.completed)| == Stage(item.status) + 1
  {
    var events := Events(item);
    var done := (e: TimelineEvent) => e.completed;
    assert events[1..][1..][1..] == [];
    assert Seqs.Filter(events[1..][1..], done) == if events[2].completed then [events[2]] else [];
  }

  /** `{event.date && ...}`: whether an event shows a date line. */
  predicate ShowsDate(e: TimelineEvent) {
    e.date != ""
  }

  /** The collected event shows its date whenever one was recorded; a later event only once completed. */
  lemma DateLines(item: PlasticItem, k: nat)
    requires k < 3
    ensures k == 0 ==> (ShowsDate(Events(item)[k]) <==> item.collectedAt != "")
    ensures k > 0 ==> (ShowsDate(Events(item)[k]) <==> k <= Stage(item.status) && item.updatedAt != "")
  {
  }
}
