/** The records the clinic application stores and passes between screens
    (types.ts), with optional properties as `Option`. */
module Types {
  import opened Optional

  datatype UserRole = Admin | Professional | Patient

  /** A staff member or patient account. */
  datatype User = User(
    id: string,
    name: string,
    email: string,
    role: UserRole,
    avatarUrl: Option<string>,
    specialty: Option<string>)

  /** A row of the `profiles` table as returned by a query. A null and an
      empty `name` or `email` are both represented by "", since every use
      of them in the components treats the two alike. */
  datatype ProfileRow = ProfileRow(
    id: string,
    name: string,
    email: string,
    role: Option<UserRole>,
    specialty: Option<string>,
    avatarUrl: Option<string>)

  /** A front-desk patient record. */
  datatype Patient = Patient(
    id: string,
    name: string,
    rg: Option<string>,
    cpf: Option<string>,
    birthDate: Option<string>,
    maritalStatus: Option<string>,
    profession: Option<string>,
    religion: Option<string>,
    educationLevel: Option<string>,
    address: Option<string>,
    email: Option<string>,
    phone: Option<string>,
    createdAt: Option<string>)

  datatype RoomType = Consultory | Children | Group

  datatype Room = Room(
    id: string,
    name: string,
    roomType: RoomType,
    capacity: nat,
    imageUrl: Option<string>)

  datatype AppointmentStatus = Scheduled | Completed | Cancelled

  datatype TransactionKind = Income | Expense

  datatype TransactionStatus = Pending | Paid

  /** A ledger entry; amounts are exact reals rather than IEEE doubles. */
  datatype Transaction = Transaction(
    id: string,
    description: string,
    amount: real,
    kind: TransactionKind,
    category: string,
    dueDate: string,
    status: TransactionStatus)

  datatype BlockTarget = RoomTarget | ProfessionalTarget

  /** An administrative block of a room or a professional on one date,
      either for the whole day (no start time) or for a time range. */
  datatype ScheduleBlock = ScheduleBlock(
    id: string,
    targetType: BlockTarget,
    targetId: string,
    date: string,
    startTime: Option<string>,
    endTime: Option<string>,
    reason: string)

  /** A service offered by the clinic ("tipo de agenda"). */
  datatype AgendaType = AgendaType(
    id: string,
    name: string,
    price: real,
    durationSlots: int,
    color: string)

  /** The write a form submission sends to the database: an insert of a new
      row, or an update of the row with the given id. */
  datatype Write<P> = Insert(payload: P) | Update(id: string, payload: P)
}
