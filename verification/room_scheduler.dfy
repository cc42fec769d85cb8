/** The room-rental screen (components/RoomScheduler.tsx): the user picks a
    date and a room, toggles hourly slots on the grid and confirms. The
    occupied slots are a fixed mock (grid positions 2 and 5); nothing is
    stored when a booking is confirmed. */
module RoomScheduler {
  import opened Optional
  import opened Seqs
  import Text
  import C = Constants

  /** The screen state: the chosen date, the chosen room, and the chosen
      start times in the order they were clicked. */
  datatype SchedulerState = SchedulerState(date: string, room: Option<string>, slots: seq<string>)

  /** What the user can do on the screen. */
  datatype Event =
    | PickDate(date: string)
    | PickRoom(roomId: string)
    | Click(index: nat)
    | Confirm

  /** The grid positions the screen shows as occupied; their buttons are disabled. */
  predicate IsOccupied(index: nat) {
    index == 2 || index == 5
  }

  /** The state when the screen opens, dated by the injected ISO timestamp of "now". */
  function Initial(nowIso: string): (s: SchedulerState)
    ensures s.room.None? && s.slots == []
    ensures Text.StartsWith(nowIso, s.date) && 'T' !in s.date
    ensures |s.date| < |nowIso| ==> nowIso[|s.date|] == 'T'
  {
    SchedulerState(Text.DatePart(nowIso), None, [])
  }

  /** Opened at `day` + "T" + `time`, the screen is dated `day`. */
  lemma InitialDate(day: string, time: string)
    requires 'T' !in day
    ensures Initial(day + "T" + time).date == day
  {
    Text.DatePartOfTimestamp(day, time);
  }

  /** `toggleSlot`: a selected time is removed (every occurrence of it), an
      unselected one is appended after the earlier selection. */
  function ToggleSlot(slots: seq<string>, time: string): (r: seq<string>)
    ensures time !in slots ==> r == slots + [time]
    ensures time in slots ==> time !in r
    ensures time in slots ==> forall t :: t != time ==> (t in r <==> t in slots)
  {
    if time in slots then RemoveAll(slots, time) else slots + [time]
  }

  /** Removing a selected time keeps every other time in its place in the
      click order. */
  lemma ToggleRemovesInPlace(before: seq<string>, time: string, after: seq<string>)
    requires time !in before && time !in after
    ensures ToggleSlot(before + [time] + after, time) == before + after
  {
    var s := before + [time] + after;
    assert s[|before|] == time;
    RemoveSingle(before, time, after);
  }

  /** Toggling an unselected time twice restores the selection. */
  lemma ToggleTwiceRestores(slots: seq<string>, time: string)
    requires time !in slots
    ensures ToggleSlot(ToggleSlot(slots, time), time) == slots
  {
    assert slots + [time] == slots + [time] + [];
    ToggleRemovesInPlace(slots, time, []);
  }

  /** Toggling keeps a duplicate-free selection duplicate-free. */
  lemma ToggleKeepsDistinct(slots: seq<string>, time: string)
    ensures NoDuplicates(slots) ==> NoDuplicates(ToggleSlot(slots, time))
  {
    if NoDuplicates(slots) && time in slots {
      RemoveKeepsDistinct(slots, time);
    }
  }

  /** The times of the free grid positions. */
  predicate IsFreeTime(t: string) {
    t in C.TimeSlots && t != C.TimeSlots[2] && t != C.TimeSlots[5]
  }

  /** What every reachable selection satisfies: distinct times, each a
      free position of the grid. */
  ghost predicate ValidSelection(slots: seq<string>) {
    NoDuplicates(slots) && forall i :: 0 <= i < |slots| ==> IsFreeTime(slots[i])
  }

  /** One user action. A click on a disabled button (an occupied slot, or
      Confirm with nothing selected) does nothing, and neither does a click
      on the grid before a room is chosen, since the grid is not shown. */
  function Step(s: SchedulerState, e: Event): (r: SchedulerState)
    ensures !e.PickDate? ==> r.date == s.date
    ensures !e.Confirm? ==> r.room == s.room || e.PickRoom?
    ensures ValidSelection(s.slots) ==> ValidSelection(r.slots)
    ensures e.Click? && s.room.Some? && e.index < |C.TimeSlots| && !IsOccupied(e.index) ==>
      r == s.(slots := ToggleSlot(s.slots, C.TimeSlots[e.index]))
    ensures e.Click? && (s.room.None? || e.index >= |C.TimeSlots| || IsOccupied(e.index)) ==> r == s
  {
    match e
    case PickDate(d) => s.(date := d)
    case PickRoom(id) => s.(room := Some(id))
    case Click(index) =>
      if s.room.Some? && index < |C.TimeSlots| && !IsOccupied(index) then
        var time := C.TimeSlots[index];
        C.TimeSlotsDistinct();
        ToggleKeepsDistinct(s.slots, time);
        s.(slots := ToggleSlot(s.slots, time))
      else
        s
    case Confirm =>
      if s.room.Some? && |s.slots| > 0 then s.(slots := [], room := None) else s
  }

  /** A sequence of user actions from a given state. */
  function Run(s: SchedulerState, events: seq<Event>): (r: SchedulerState)
    ensures ValidSelection(s.slots) ==> ValidSelection(r.slots)
    decreases |events|
  {
    if |events| == 0 then s else Run(Step(s, events[0]), events[1..])
  }

  /** Whatever the user does after opening the screen, the selection holds
      distinct free times, so 10:00 and 13:00 (the occupied positions) are
      never selected. */
  lemma OccupiedNeverSelected(nowIso: string, events: seq<Event>)
    ensures ValidSelection(Run(Initial(nowIso), events).slots)
    ensures "10:00" !in Run(Initial(nowIso), events).slots
    ensures "13:00" !in Run(Initial(nowIso), events).slots
  {
    var r := Run(Initial(nowIso), events);
    C.OccupiedSlotLabels();
    assert forall i :: 0 <= i < |r.slots| ==> IsFreeTime(r.slots[i]);
  }

  /** A click on an occupied slot changes nothing. */
  lemma OccupiedClickIgnored(s: SchedulerState, index: nat)
    requires IsOccupied(index)
    ensures Step(s, Click(index)) == s
  {
  }

  /** Choosing a room, even a different one, keeps the slot selection. */
  lemma PickRoomKeepsSlots(s: SchedulerState, roomId: string)
    ensures Step(s, PickRoom(roomId)).slots == s.slots
    ensures Step(s, PickRoom(roomId)).room == Some(roomId)
  {
  }

  /** Confirming clears the selection and the room, and keeps the date. */
  lemma ConfirmClears(s: SchedulerState)
    requires s.room.Some? && |s.slots| > 0
    ensures Step(s, Confirm) == SchedulerState(s.date, None, [])
  {
  }

  /** Confirm is disabled while nothing is selected. */
  lemma ConfirmDisabledWhenEmpty(s: SchedulerState)
    requires s.slots == []
    ensures Step(s, Confirm) == s
  {
  }
}
