/** The simulated journey on the tracking page: every five seconds the
    marker moves one stop along the fixed five-stop route, the location line
    and the timeline follow, and after the last stop the interval is
    cleared.  The map library, the timer and the DOM are not modelled; one
    interval callback is one call of Tick. */
module RouteMap {

  /** The stops of the route, Mumbai to Delhi. */
  const RouteLength: nat := 5

  /** The switch that names the current stop; any other index leaves the
      name empty. */
  function LocationName(index: int): (name: string)
    ensures 0 <= index < RouteLength <==> name != ""
  {
    match index
    case 0 => "Mumbai"
    case 1 => "Nagpur"
    case 2 => "Lucknow"
    case 3 => "Agra"
    case 4 => "Delhi"
    case _ => ""
  }

  const StateNames: seq<string> := ["Maharashtra", "Maharashtra", "Madhya Pradesh", "Uttar Pradesh", "Delhi"]

  /** getStateName: `states[index] || 'Unknown'`. */
  function StateName(index: int): (name: string)
    ensures 0 <= index < |StateNames| ==> name == StateNames[index]
    ensures !(0 <= index < |StateNames|) ==> name == "Unknown"
  {
    if 0 <= index < |StateNames| && StateNames[index] != "" then StateNames[index] else "Unknown"
  }

  /** Every stop has a name and a state, and none of them is "Unknown". */
  lemma StopsAreNamed(index: int)
    requires 0 <= index < RouteLength
    ensures LocationName(index) != "" && StateName(index) != "Unknown"
  {
  }

  /** The classes of one timeline item. */
  datatype TimelineItem = TimelineItem(completed: bool, active: bool)

  /** What updateTimeline makes of item `i` when the parcel is at stop `k`. */
  function ItemAt(i: int, k: int): (item: TimelineItem)
    ensures item.completed <==> i < k
    ensures item.active <==> i == k
  {
    if i < k then TimelineItem(true, false)
    else if i == k then TimelineItem(false, true)
    else TimelineItem(false, false)
  }

  /** No item is both completed and active. */
  lemma ItemNeverBoth(i: int, k: int)
    ensures !(ItemAt(i, k).completed && ItemAt(i, k).active)
  {
  }

  /** The status line for stop `k` of a timeline with `count` items. */
  function StatusText(k: int, count: int): (text: string)
    ensures k == 0 ==> text == "Package Received"
    ensures k != 0 && k == count - 1 ==> text == "Delivered"
    ensures k != 0 && k != count - 1 ==> text == "In Transit"
  {
    if k == 0 then "Package Received"
    else if k == count - 1 then "Delivered"
    else "In Transit"
  }

  /** With the five-item timeline of the page, a tick-driven run shows
      "In Transit" at the three middle stops and "Delivered" at the last. */
  lemma StatusAlongTheRoute(k: int)
    requires 1 <= k < RouteLength
    ensures StatusText(k, RouteLength) == (if k == RouteLength - 1 then "Delivered" else "In Transit")
  {
  }

  class RouteSimulation {
    var currentIndex: int
    /** Whether the interval is still set. */
    var running: bool
    /** The "current location" line. */
    var currentLocation: string
    var statusText: string
    /** The timeline items found on the page. */
    const timeline: array<TimelineItem>

    predicate Valid()
      reads this
    {
      0 <= currentIndex <= RouteLength - 1
    }

    constructor (items: array<TimelineItem>)
      ensures Valid() && currentIndex == 0 && running && timeline == items
      ensures currentLocation == "" && statusText == ""
    {
      currentIndex := 0;
      running := true;
      currentLocation := "";
      statusText := "";
      timeline := items;
    }

    /** updateTimeline(k): item i is completed exactly when i < k and active
        exactly when i == k; the status line follows. */
    method UpdateTimeline(k: int)
      modifies timeline, this
      ensures forall i :: 0 <= i < timeline.Length ==> timeline[i] == ItemAt(i, k)
      ensures statusText == StatusText(k, timeline.Length)
      ensures currentIndex == old(currentIndex) && running == old(running)
      ensures currentLocation == old(currentLocation)
    {
      for i := 0 to timeline.Length
        modifies timeline
        invariant forall j :: 0 <= j < i ==> timeline[j] == ItemAt(j, k)
      {
        if i < k {
          timeline[i] := TimelineItem(true, false);
        } else if i == k {
          timeline[i] := TimelineItem(false, true);
        } else {
          timeline[i] := TimelineItem(false, false);
        }
      }
      statusText := StatusText(k, timeline.Length);
    }

    /** One interval callback: before the last stop the parcel moves on by
        exactly one stop and the page follows; at the last stop the interval
        is cleared and nothing else changes. */
    method Tick()
      modifies this, timeline
      requires Valid() && running
      ensures Valid()
      ensures old(currentIndex) < RouteLength - 1 ==>
        currentIndex == old(currentIndex) + 1 && running
        && currentLocation == LocationName(currentIndex) + ", " + StateName(currentIndex)
        && statusText == StatusText(currentIndex, timeline.Length)
        && forall i :: 0 <= i < timeline.Length ==> timeline[i] == ItemAt(i, currentIndex)
      ensures old(currentIndex) == RouteLength - 1 ==>
        currentIndex == old(currentIndex) && !running && currentLocation == old(currentLocation)
        && statusText == old(statusText) && timeline[..] == old(timeline[..])
    {
      if currentIndex < RouteLength - 1 {
        currentIndex := currentIndex + 1;
        var locationName := LocationName(currentIndex);
        currentLocation := locationName + ", " + StateName(currentIndex);
        UpdateTimeline(currentIndex);
      } else {
        running := false;
      }
    }

    /** Ticking until the interval is cleared: the parcel ends at the last
        stop, which takes exactly as many moves as there are stops after the
        current one, plus the tick that clears the interval. */
    method RunToEnd() returns (ticks: nat)
      modifies this, timeline
      requires Valid() && running
      ensures Valid() && !running && currentIndex == RouteLength - 1
      ensures ticks == RouteLength - old(currentIndex)
      ensures old(currentIndex) < RouteLength - 1 ==>
        currentLocation == LocationName(RouteLength - 1) + ", " + StateName(RouteLength - 1)
        && statusText == StatusText(RouteLength - 1, timeline.Length)
        && forall i :: 0 <= i < timeline.Length ==> timeline[i] == ItemAt(i, RouteLength - 1)
      ensures timeline.Length == RouteLength && old(currentIndex) < RouteLength - 1 ==> statusText == "Delivered"
      ensures old(currentIndex) == RouteLength - 1 ==>
        currentLocation == old(currentLocation) && statusText == old(statusText)
        && timeline[..] == old(timeline[..])
    {
      ticks := 0;
      ghost var start := currentIndex;
      ghost var moved := false;
      while running
        invariant Valid()
        invariant ticks == currentIndex - start + (if running then 0 else 1)
        invariant running || currentIndex == RouteLength - 1
        invariant moved <==> currentIndex > start
        invariant moved ==>
          currentLocation == LocationName(currentIndex) + ", " + StateName(currentIndex)
          && statusText == StatusText(currentIndex, timeline.Length)
          && forall i :: 0 <= i < timeline.Length ==> timeline[i] == ItemAt(i, currentIndex)
        invariant !moved ==>
          currentLocation == old(currentLocation) && statusText == old(statusText)
          && timeline[..] == old(timeline[..])
        decreases RouteLength - currentIndex, running
      {
        Tick();
        ticks := ticks + 1;
        moved := currentIndex > start;
      }
    }
  }
}
