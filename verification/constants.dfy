/** The fixed data of the application (constants.ts): the hourly time grid,
    the room catalog, the professional roster and the spans of the mock
    appointments. */
module Constants {
  import opened Optional
  import opened Types
  import Seqs

  // ---------------------------------------------------------------------
  // Time grid
  // ---------------------------------------------------------------------

  /** The bookable start times, one per hour from 08:00 to 19:00. */
  const TimeSlots: seq<string> := [
    "08:00", "09:00", "10:00", "11:00", "12:00",
    "13:00", "14:00", "15:00", "16:00", "17:00", "18:00", "19:00"
  ]

  predicate IsDigit(c: char) {
    '0' <= c <= '9'
  }

  function DigitChar(d: nat): (c: char)
    requires d < 10
    ensures IsDigit(c)
  {
    ('0' as int + d) as char
  }

  function DigitValue(c: char): (d: nat)
    requires IsDigit(c)
    ensures d < 10
  {
    c as int - '0' as int
  }

  /** The two-digit "HH:00" label of hour `h`. */
  function HourLabel(h: nat): string
    requires h < 24
  {
    [DigitChar(h / 10), DigitChar(h % 10), ':', '0', '0']
  }

  /** Reads a label of the form "HH:00" back as its hour; anything else
      (minutes other than 00, a wrong length, a non-digit) is rejected. */
  function ParseHour(s: string): (r: Option<nat>)
    ensures r.Some? ==> r.value < 100
    ensures r.Some? ==> |s| == 5 && s[2] == ':' && s[3..] == "00"
  {
    if |s| == 5 && IsDigit(s[0]) && IsDigit(s[1]) && s[2] == ':' && s[3] == '0' && s[4] == '0' then
      Some(10 * DigitValue(s[0]) + DigitValue(s[1]))
    else
      None
  }

  /** Reading back the label of an hour gives that hour. */
  lemma HourLabelRoundTrip(h: nat)
    requires h < 24
    ensures ParseHour(HourLabel(h)) == Some(h)
  {
    var s := HourLabel(h);
    assert DigitValue(s[0]) == h / 10;
    assert DigitValue(s[1]) == h % 10;
  }

  /** Every grid entry is the label of hour 8 + its index, so the grid has
      12 entries running from "08:00" to "19:00". */
  lemma {:induction false} TimeSlotsAreHourLabels()
    ensures |TimeSlots| == 12
    ensures forall i :: 0 <= i < |TimeSlots| ==> TimeSlots[i] == HourLabel(8 + i)
    ensures TimeSlots[0] == "08:00" && TimeSlots[11] == "19:00"
  {
  }

  /** Every grid entry has the form HH:00, and consecutive entries are
      exactly one hour apart (hence strictly increasing). */
  lemma TimeSlotsHourly()
    ensures forall i :: 0 <= i < |TimeSlots| ==> ParseHour(TimeSlots[i]) == Some(8 + i)
    ensures forall i :: 0 <= i < |TimeSlots| - 1 ==>
      ParseHour(TimeSlots[i + 1]).value == ParseHour(TimeSlots[i]).value + 1
  {
    TimeSlotsAreHourLabels();
    forall i | 0 <= i < |TimeSlots|
      ensures ParseHour(TimeSlots[i]) == Some(8 + i)
    {
      HourLabelRoundTrip(8 + i);
    }
  }

  /** No start time is offered twice. */
  lemma TimeSlotsDistinct()
    ensures Seqs.NoDuplicates(TimeSlots)
  {
    TimeSlotsHourly();
  }

  /** The grid positions the room scheduler marks occupied hold 10:00 and 13:00. */
  lemma OccupiedSlotLabels()
    ensures TimeSlots[2] == "10:00" && TimeSlots[5] == "13:00"
  {
  }

  // ---------------------------------------------------------------------
  // Catalogs
  // ---------------------------------------------------------------------

  /** The founder, who is also the first entry of the professional roster. */
  const CurrentUser: User := User(
    "u1", "Dra. Elisa Harumi", "elisa@harumi.com", Admin,
    Some("https://picsum.photos/id/64/200/200"), Some("Psicóloga Fundadora"))

  const MockRooms: seq<Room> := [
    Room("r1", "Sala Cerejeira", Consultory, 3,
      Some("https://images.unsplash.com/photo-1600607686527-6fb886090705?ixlib=rb-4.0.3&auto=format&fit=crop&w=800&q=80")),
    Room("r2", "Sala Bambu", Consultory, 3,
      Some("https://images.unsplash.com/photo-1598928506311-c55ded91a20c?ixlib=rb-4.0.3&auto=format&fit=crop&w=800&q=80")),
    Room("r3", "Espaço Lúdico", Children, 4,
      Some("https://images.unsplash.com/photo-1519710164239-da123dc03ef4?ixlib=rb-4.0.3&auto=format&fit=crop&w=800&q=80"))
  ]

  const MockProfessionals: seq<User> := [
    CurrentUser,
    User("u2", "Dr. Lucas Mendes", "lucas@harumi.com", Professional,
      Some("https://picsum.photos/id/91/200/200"), Some("Nutricionista Esportivo")),
    User("u3", "Dra. Fernanda Costa", "fernanda@harumi.com", Professional,
      Some("https://picsum.photos/id/65/200/200"), Some("Psicóloga Infantil")),
    User("u4", "Dr. Roberto Tanaka", "roberto@harumi.com", Professional,
      Some("https://picsum.photos/id/88/200/200"), Some("Psiquiatra"))
  ]

  /** Room ids are pairwise distinct. */
  lemma RoomIdsDistinct()
    ensures |MockRooms| == 3
    ensures forall i, j :: 0 <= i < j < |MockRooms| ==> MockRooms[i].id != MockRooms[j].id
  {
  }

  /** Professional ids are pairwise distinct and the roster opens with the
      founder, who is an administrator. */
  lemma ProfessionalRoster()
    ensures forall i, j :: 0 <= i < j < |MockProfessionals| ==>
      MockProfessionals[i].id != MockProfessionals[j].id
    ensures MockProfessionals[0] == CurrentUser && CurrentUser.role == Admin
  {
  }

  // ---------------------------------------------------------------------
  // Mock appointments
  // ---------------------------------------------------------------------

  /** The id and start/end timestamps of a mock appointment. */
  datatype MockSpan = MockSpan(id: string, startTime: string, endTime: string)

  const MockAppointmentSpans: seq<MockSpan> := [
    MockSpan("a1", "2024-05-20T09:00:00", "2024-05-20T10:00:00"),
    MockSpan("a2", "2024-05-20T10:00:00", "2024-05-20T11:00:00"),
    MockSpan("a3", "2024-05-20T14:00:00", "2024-05-20T15:00:00")
  ]

  /** The hour of a "YYYY-MM-DDTHH:00:00" timestamp that falls on the hour. */
  function TimestampHour(ts: string): (r: Option<nat>)
    ensures r.Some? ==> |ts| == 19 && ts[10] == 'T' && ts[16..] == ":00"
  {
    if |ts| == 19 && ts[10] == 'T' && ts[16..] == ":00" then ParseHour(ts[11..16]) else None
  }

  /** The span starts and ends on the same date, on the hour, one hour apart. */
  predicate LastsOneHour(span: MockSpan) {
    && TimestampHour(span.startTime).Some?
    && TimestampHour(span.endTime).Some?
    && span.startTime[..10] == span.endTime[..10]
    && TimestampHour(span.endTime).value == TimestampHour(span.startTime).value + 1
  }

  /** A timestamp of the 20th of May 2024 at `hour`:00 reads as that hour. */
  lemma StampHour(ts: string, hour: string, h: nat)
    requires ts == "2024-05-20T" + hour + ":00" && ParseHour(hour) == Some(h)
    ensures TimestampHour(ts) == Some(h) && ts[..10] == "2024-05-20"
  {
    assert ts[11..16] == hour;
    assert ts[16..] == ":00";
    assert ts[..10] == "2024-05-20";
  }

  /** Appointment a1 runs from 09:00 to 10:00. */
  lemma SpanA1LastsOneHour()
    ensures LastsOneHour(MockAppointmentSpans[0])
  {
    StampHour(MockAppointmentSpans[0].startTime, "09:00", 9);
    StampHour(MockAppointmentSpans[0].endTime, "10:00", 10);
  }

  /** Appointment a2 runs from 10:00 to 11:00. */
  lemma SpanA2LastsOneHour()
    ensures LastsOneHour(MockAppointmentSpans[1])
  {
    StampHour(MockAppointmentSpans[1].startTime, "10:00", 10);
    StampHour(MockAppointmentSpans[1].endTime, "11:00", 11);
  }

  /** Appointment a3 runs from 14:00 to 15:00. */
  lemma SpanA3LastsOneHour()
    ensures LastsOneHour(MockAppointmentSpans[2])
  {
    StampHour(MockAppointmentSpans[2].startTime, "14:00", 14);
    StampHour(MockAppointmentSpans[2].endTime, "15:00", 15);
  }

  /** Every mock appointment ends exactly one hour after it starts. */
  lemma MockAppointmentsLastOneHour()
    ensures forall i :: 0 <= i < |MockAppointmentSpans| ==> LastsOneHour(MockAppointmentSpans[i])
  {
    SpanA1LastsOneHour();
    SpanA2LastsOneHour();
    SpanA3LastsOneHour();
  }
}
