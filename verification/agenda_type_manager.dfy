/** The service-type screen (components/AgendaTypeManager.tsx): a modal form
    for the name, price and colour of a service, and the row it writes to
    `agenda_types`. Every service is saved as one slot long. */
module AgendaTypeManager {
  import opened Optional
  import opened Types

  /** The form fields; the price is the text of its number input. */
  datatype TypeForm = TypeForm(name: string, price: string, color: string)

  /** The columns written on insert or update. */
  datatype TypePayload = TypePayload(name: string, price: real, durationSlots: int, color: string)

  /** The modal state: the form and the id of the edited type, if any. */
  datatype Modal = Modal(open: bool, editingId: Option<string>, form: TypeForm)

  const DefaultColor: string := "#B5DAD7"

  /** The form of a new type: empty name and price, the default colour. */
  const NewTypeForm: TypeForm := TypeForm("", "", DefaultColor)

  /** `handleOpenModal`: editing prefills name and colour unchanged and the
      price as its decimal text (`show` is `Number.prototype.toString`); a
      new type starts from the default form. */
  function OpenModal(t: Option<AgendaType>, show: real -> string): (m: Modal)
    ensures m.open
    ensures t.None? ==> m.editingId.None? && m.form.name == "" && m.form.price == "" && m.form.color == "#B5DAD7"
    ensures t.Some? ==> m.editingId == Some(t.value.id)
    ensures t.Some? ==> m.form.name == t.value.name && m.form.color == t.value.color && m.form.price == show(t.value.price)
  {
    match t
    case Some(x) => Modal(true, Some(x.id), TypeForm(x.name, show(x.price), x.color))
    case None => Modal(true, None, NewTypeForm)
  }

  /** The payload of `handleSubmit`: the price is parsed (`parse` is
      `parseFloat`), an empty price counts as 0, and the duration is
      always one slot whatever the stored type had. */
  function Payload(form: TypeForm, parse: string -> real): (p: TypePayload)
    ensures p.durationSlots == 1
    ensures p.name == form.name && p.color == form.color
    ensures form.price == "" ==> p.price == 0.0
    ensures form.price != "" ==> p.price == parse(form.price)
  {
    TypePayload(form.name, if form.price == "" then 0.0 else parse(form.price), 1, form.color)
  }

  /** The write `handleSubmit` sends: an update of the edited type when the
      id is truthy, an insert otherwise. */
  function SubmitWrite(m: Modal, parse: string -> real): (w: Write<TypePayload>)
    ensures w.payload == Payload(m.form, parse)
    ensures w.Update? <==> m.editingId.Some? && m.editingId.value != ""
    ensures w.Update? ==> w.id == m.editingId.value
  {
    match m.editingId
    case Some(id) => if id != "" then Update(id, Payload(m.form, parse)) else Insert(Payload(m.form, parse))
    case None => Insert(Payload(m.form, parse))
  }

  /** Saving an unedited prefilled form keeps the name and colour, sets the
      duration to one slot, and keeps the price whenever parsing its text
      gives the price back. */
  lemma UneditedSaveKeepsType(t: AgendaType, show: real -> string, parse: string -> real)
    requires t.id != ""
    requires show(t.price) != "" && parse(show(t.price)) == t.price
    ensures SubmitWrite(OpenModal(Some(t), show), parse)
      == Update(t.id, TypePayload(t.name, t.price, 1, t.color))
  {
  }

  /** A stored type with any other duration is rewritten to one slot by an
      unedited save, so the stored duration is not preserved. */
  lemma UneditedSaveResetsDuration(t: AgendaType, show: real -> string, parse: string -> real)
    requires t.durationSlots != 1
    ensures SubmitWrite(OpenModal(Some(t), show), parse).payload.durationSlots != t.durationSlots
  {
  }

  /** Saving the untouched new-type form inserts a free service with the
      default colour and an empty name. */
  lemma BlankSaveInsertsFreeService(parse: string -> real)
    ensures SubmitWrite(OpenModal(None, (x: real) => ""), parse) == Insert(TypePayload("", 0.0, 1, DefaultColor))
  {
  }

  /** `handleDelete`, given the answer to the confirmation dialog: the id of
      the row to delete, if any. */
  function DeleteRequest(id: string, confirmed: bool): (r: Option<string>)
    ensures r.Some? <==> confirmed
    ensures r.Some? ==> r.value == id
  {
    if confirmed then Some(id) else None
  }
}
