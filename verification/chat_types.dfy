/** Data shared by the history loader and the per-turn handler of the chat
    front-end: the in-memory transcript entries, the rows appended to the
    sheet, and the records the sheet reader hands back. */
module ChatTypes {

  /** A value that may be absent, as a field looked up with `dict.get`. */
  datatype Option<+T> = None | Some(value: T)

  /** Speaker of a transcript entry, as the chat display names it. */
  datatype Role = User | Assistant

  /** One entry of the in-memory transcript. */
  datatype Message = Message(role: Role, content: string)

  /** One row of the sheet as the reader returns it: the role column
      ("角色") and the content column ("內容"), either of which may be missing. */
  datatype Record = Record(role: Option<string>, content: Option<string>)

  /** One row the handler appends: timestamp, role label, content. */
  datatype Row = Row(timestamp: string, roleLabel: string, content: string)

  /** Role labels written to the sheet. */
  const UserLabel: string := "user"
  const ModelLabel: string := "model"

  /** Python truthiness of an optional text field: present and non-empty. */
  predicate Present(field: Option<string>)
  {
    field.Some? && |field.value| > 0
  }

  /** A record the loader keeps: both its role and its content are truthy. */
  predicate Usable(r: Record)
  {
    Present(r.role) && Present(r.content)
  }

  /** The label the handler writes for a transcript role. */
  function LabelOf(role: Role): (lbl: string)
  {
    match role
    case User => UserLabel
    case Assistant => ModelLabel
  }

  /** The transcript role the loader gives a sheet label: only "user" is the
      user, every other label (including "model" and unknown ones) is the
      assistant. Undoes `LabelOf`. */
  function RoleOfLabel(lbl: string): (role: Role)
    ensures role == User <==> lbl == UserLabel
    ensures forall r: Role :: lbl == LabelOf(r) ==> role == r
  {
    if lbl == UserLabel then User else Assistant
  }

  /** The transcript entry the loader builds from a usable record. */
  function ToMessage(r: Record): (m: Message)
    requires Usable(r)
    ensures |m.content| > 0
    ensures m.content == r.content.value
    ensures m.role == User <==> r.role.value == UserLabel
  {
    Message(RoleOfLabel(r.role.value), r.content.value)
  }
}
