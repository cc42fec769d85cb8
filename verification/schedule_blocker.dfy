/** The administrative block screen (components/ScheduleBlocker.tsx): a
    form that creates a block of a room or a professional on a date, the
    list of blocks with the name of their target, and deletion. Blocks are
    only stored and listed here; no booking path consults them. */
module ScheduleBlocker {
  import opened Optional
  import opened Types
  import opened Seqs
  import opened Text
  import C = Constants

  /** The form fields; empty strings are the unset inputs. */
  datatype BlockForm = BlockForm(
    targetType: BlockTarget,
    targetId: string,
    date: string,
    startTime: string,
    endTime: string,
    reason: string)

  /** The row inserted into `schedule_blocks`. */
  datatype NewBlock = NewBlock(
    targetType: BlockTarget,
    targetId: string,
    date: string,
    startTime: Option<string>,
    endTime: Option<string>,
    reason: string)

  /** The outcome of submitting the form: the row sent (if any) and the next form. */
  datatype BlockAttempt = BlockAttempt(insert: Option<NewBlock>, form: BlockForm)

  /** The form as the screen first shows it: a room target, nothing filled in. */
  const EmptyForm: BlockForm := BlockForm(RoomTarget, "", "", "", "", "")

  const UnknownRoom: string := "Sala Desconhecida"
  const UnknownProfessional: string := "Profissional Desconhecido"
  const WholeDay: string := " • Dia todo"

  /** `value || null`: an empty input is stored as null. */
  function NullIfEmpty(s: string): (r: Option<string>)
    ensures r.None? <==> s == ""
    ensures r.Some? ==> r.value == s
  {
    if s == "" then None else Some(s)
  }

  /** Reading a stored optional time back into an input gives the original
      input, so no non-empty time is lost. */
  lemma NullIfEmptyRoundTrip(s: string)
    ensures NullIfEmpty(s).GetOr("") == s
  {
  }

  /** The radio buttons switch the target type and leave the chosen target id. */
  function SetTargetType(form: BlockForm, t: BlockTarget): (r: BlockForm)
    ensures r.targetType == t
    ensures r.(targetType := form.targetType) == form
  {
    form.(targetType := t)
  }

  /** `handleBlock`, given whether the insert succeeds: nothing happens
      without a target and a date; otherwise the row is sent with empty
      times as null, and after a successful insert only the reason is cleared. */
  function SubmitBlock(form: BlockForm, insertSucceeds: bool): (r: BlockAttempt)
    ensures form.targetId == "" || form.date == "" ==> r == BlockAttempt(None, form)
    ensures form.targetId != "" && form.date != "" ==> r.insert.Some?
    ensures r.insert.Some? ==>
      && r.insert.value.targetType == form.targetType
      && r.insert.value.targetId == form.targetId
      && r.insert.value.date == form.date
      && r.insert.value.reason == form.reason
      && r.insert.value.startTime.GetOr("") == form.startTime
      && r.insert.value.endTime.GetOr("") == form.endTime
      && (r.insert.value.startTime.None? <==> form.startTime == "")
      && (r.insert.value.endTime.None? <==> form.endTime == "")
    ensures r.form.(reason := form.reason) == form
    ensures r.form.reason == "" <==> form.reason == "" || (r.insert.Some? && insertSucceeds)
  {
    if form.targetId == "" || form.date == "" then
      BlockAttempt(None, form)
    else
      var row := NewBlock(form.targetType, form.targetId, form.date,
        NullIfEmpty(form.startTime), NullIfEmpty(form.endTime), form.reason);
      BlockAttempt(Some(row), if insertSucceeds then form.(reason := "") else form)
  }

  /** Submitting the form as first shown sends nothing and leaves it as it is. */
  lemma EmptyFormSendsNothing(insertSucceeds: bool)
    ensures SubmitBlock(EmptyForm, insertSucceeds) == BlockAttempt(None, EmptyForm)
  {
  }

  /** `list.find(x => x.id === key)?.name || fallback`. */
  function LookupName<T>(items: seq<T>, key: string, id: T -> string, name: T -> string, fallback: string): (r: string)
    ensures (forall i :: 0 <= i < |items| ==> id(items[i]) != key) ==> r == fallback
    ensures forall i :: 0 <= i < |items| && id(items[i]) == key && (forall j :: 0 <= j < i ==> id(items[j]) != key) ==>
      r == OrElse(name(items[i]), fallback)
    ensures r == fallback || exists i :: 0 <= i < |items| && id(items[i]) == key && name(items[i]) == r
  {
    match FindIndex(items, (t: T) => id(t) == key)
    case None => fallback
    case Some(i) => OrElse(name(items[i]), fallback)
  }

  /** `getTargetName`: rooms resolve against the room catalog, professionals
      against the fetched professional list, each with its own fallback. */
  function TargetName(block: ScheduleBlock, professionals: seq<User>): (r: string)
    ensures block.targetType == RoomTarget ==>
      || r == UnknownRoom
      || exists i :: 0 <= i < |C.MockRooms| && C.MockRooms[i].id == block.targetId && C.MockRooms[i].name == r
    ensures block.targetType == ProfessionalTarget ==>
      || r == UnknownProfessional
      || exists i :: 0 <= i < |professionals| && professionals[i].id == block.targetId && professionals[i].name == r
    ensures block.targetType == RoomTarget ==>
      forall i :: (0 <= i < |C.MockRooms| && C.MockRooms[i].id == block.targetId &&
        forall j :: 0 <= j < i ==> C.MockRooms[j].id != block.targetId) ==>
        r == OrElse(C.MockRooms[i].name, UnknownRoom)
    ensures block.targetType == ProfessionalTarget ==>
      forall i :: (0 <= i < |professionals| && professionals[i].id == block.targetId &&
        forall j :: 0 <= j < i ==> professionals[j].id != block.targetId) ==>
        r == OrElse(professionals[i].name, UnknownProfessional)
  {
    match block.targetType
    case RoomTarget =>
      LookupName(C.MockRooms, block.targetId, (x: Room) => x.id, (x: Room) => x.name, UnknownRoom)
    case ProfessionalTarget =>
      LookupName(professionals, block.targetId, (u: User) => u.id, (u: User) => u.name, UnknownProfessional)
  }

  /** A room block names its room exactly when the id is in the catalog;
      any other id shows the unknown-room text. */
  lemma RoomTargetResolves(block: ScheduleBlock, professionals: seq<User>)
    requires block.targetType == RoomTarget
    ensures TargetName(block, professionals) != UnknownRoom <==> block.targetId in {"r1", "r2", "r3"}
    ensures block.targetId == "r1" ==> TargetName(block, professionals) == "Sala Cerejeira"
  {
    var rooms := C.MockRooms;
    var name := TargetName(block, professionals);
    if block.targetId == "r1" {
      assert rooms[0].id == block.targetId;
    } else if block.targetId == "r2" {
      assert rooms[1].id == block.targetId && rooms[0].id != block.targetId;
    } else if block.targetId == "r3" {
      assert rooms[2].id == block.targetId && rooms[1].id != block.targetId && rooms[0].id != block.targetId;
    } else {
      assert forall i :: 0 <= i < |rooms| ==> rooms[i].id != block.targetId;
    }
  }

  /** A professional block whose id is in no fetched profile shows the
      unknown-professional text. */
  lemma UnknownProfessionalFallback(block: ScheduleBlock, professionals: seq<User>)
    requires block.targetType == ProfessionalTarget
    requires forall i :: 0 <= i < |professionals| ==> professionals[i].id != block.targetId
    ensures TargetName(block, professionals) == UnknownProfessional
  {
  }

  /** A professional block whose id is in the fetched list shows the name
      of the first profile with that id, or the unknown-professional text
      when that name is empty. */
  lemma KnownProfessionalResolves(block: ScheduleBlock, professionals: seq<User>, k: nat)
    requires block.targetType == ProfessionalTarget
    requires k < |professionals| && professionals[k].id == block.targetId
    requires forall j :: 0 <= j < k ==> professionals[j].id != block.targetId
    ensures TargetName(block, professionals) == OrElse(professionals[k].name, UnknownProfessional)
    ensures professionals[k].name != "" ==> TargetName(block, professionals) == professionals[k].name
  {
  }

  /** The template literal of a possibly-null string. */
  function JsText(o: Option<string>): string {
    match o
    case Some(s) => s
    case None => "null"
  }

  /** A block without a (non-empty) start time covers the whole day. */
  predicate IsWholeDay(b: ScheduleBlock) {
    b.startTime.None? || b.startTime.value == ""
  }

  /** The time part of a listed block: " • Dia todo" for a whole-day block,
      otherwise " • start - end" (a missing end time prints as "null"). */
  function TimeLabel(b: ScheduleBlock): (r: string)
    ensures IsWholeDay(b) ==> r == WholeDay
    ensures !IsWholeDay(b) ==> StartsWith(r, " • " + b.startTime.value + " - ")
    ensures '-' in r <==> !IsWholeDay(b)
    ensures !IsWholeDay(b) && b.endTime.Some? ==> r == " • " + b.startTime.value + " - " + b.endTime.value
  {
    if IsWholeDay(b) then
      WholeDay
    else
      var r := " • " + b.startTime.value + " - " + JsText(b.endTime);
      assert r[3 + |b.startTime.value| + 1] == '-';
      r
  }

  /** A block with a start time but no end time prints its end as "null". */
  lemma OpenEndedBlockShowsNull(b: ScheduleBlock, t: string)
    requires b.startTime == Some(t) && t != "" && b.endTime.None?
    ensures TimeLabel(b) == " • " + t + " - null"
  {
  }

  /** `handleDelete`, given the answer to the confirmation dialog and
      whether the delete succeeds: the blocks the refetch lists. The
      returned error is ignored, so a failed delete lists the blocks as
      they were. */
  function DeleteBlock(blocks: seq<ScheduleBlock>, id: string, confirmed: bool, succeeded: bool): (r: seq<ScheduleBlock>)
    ensures !(confirmed && succeeded) ==> r == blocks
    ensures confirmed && succeeded ==> forall i :: 0 <= i < |r| ==> r[i].id != id && r[i] in blocks
    ensures confirmed && succeeded ==> forall i :: 0 <= i < |blocks| && blocks[i].id != id ==> blocks[i] in r
  {
    if confirmed && succeeded then Filter(blocks, (b: ScheduleBlock) => b.id != id) else blocks
  }
}
