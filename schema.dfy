/** The rows of the store the route handlers work on, the shape of their
    replies, and the JavaScript notions (truthiness, `undefined` fields)
    the handlers rely on. */
module Schema {

  datatype Option<T> = None | Some(value: T)

  /** JavaScript truthiness of an optional string: a missing value, `null`
      and the empty string are all falsy. */
  predicate Present(s: Option<string>)
  {
    s.Some? && s.value != ""
  }

  /** A field of a JSON request body as a Prisma `update` sees it: left out
      of the body (`undefined`, so the column keeps its value) or given,
      possibly as `null`. */
  datatype Patch<T> = Keep | Set(value: Option<T>)

  /** The column value after an `update` that carries the field `p`. */
  function Patched<T>(p: Patch<T>, current: Option<T>): Option<T>
  {
    match p
    case Keep => current
    case Set(v) => v
  }

  /** The session roles `"admin" | "user" | "incharge"`; `Ordinary` is the
      role named `"user"`. */
  datatype Role = Admin | Ordinary | Incharge

  /** What the identity provider says about the caller. */
  datatype Session = Session(id: string, govId: string, role: Role)

  /** A row of the user table; `stars` is nullable. */
  datatype User = User(
    id: string,
    govId: string,
    name: string,
    email: string,
    role: Role,
    location: Option<string>,
    stars: Option<int>)

  /** A row of the inventory-item table. */
  datatype Item = Item(
    itemId: string,
    category: string,
    itemType: string,
    location: Option<string>,
    temporaryLocation: Option<string>,
    condition: Option<string>)

  /** `Pending` is the status a new request gets from the table's default. */
  datatype Status = Pending | Approved | Rejected | Completed | Discarded

  /** A row of the maintenance-request table. `govId` is a column of its
      own; `userId` and `itemId` are the links to the requester and the
      item. Timestamps are plain numbers. */
  datatype Request = Request(
    id: nat,
    issueDescription: string,
    govId: string,
    userId: string,
    itemId: string,
    status: Status,
    technicianId: Option<string>,
    resolutionDetails: Option<string>,
    discardReason: Option<string>,
    approvalDate: Option<nat>,
    completionDate: Option<nat>,
    maintenanceCharge: Option<int>)

  datatype Notification = Notification(userId: string, inchargeId: string, message: string)

  /** Ledger rows; `details` holds whatever other fields the body carried. */
  datatype Penalty = Penalty(userId: string, numberOfStarsReduced: int, details: map<string, string>)
  datatype Award = Award(userId: string, numberOfStarsAdded: int, details: map<string, string>)

  /** The JSON body of a reply: the data, `{message}`, `{error}`, both
      `{message, error}`, or a message with the data. */
  datatype Body<T> =
    | Data(value: T)
    | Message(text: string)
    | Error(text: string)
    | MessageAndError(text: string, error: string)
    | MessageAndData(text: string, value: T)

  datatype Response<T> = Response(status: nat, body: Body<T>)

  const INTERNAL_ERROR := "Internal server error"
}
