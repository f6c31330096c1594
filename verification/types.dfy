/** The shared data model: points, drawing elements, users and the wire
    messages exchanged between the relay server and its clients
    (src/types/drawing.ts). Coordinates are idealised as reals. */
module Types {
  import opened Wrappers

  /** A canvas coordinate, already mapped back from screen space. */
  datatype Point = Point(x: real, y: real)

  /** The six element types the client's type union admits. `Eraser` is a
      tool; no element of that type is ever constructed by the client. */
  datatype Kind = Pen | Eraser | Rectangle | Circle | Arrow | Text

  datatype Style = Style(stroke: string, strokeWidth: real, fill: Option<string>)

  datatype DrawingElement = DrawingElement(
    id: string,
    kind: Kind,
    points: seq<Point>,
    style: Style,
    text: Option<string>,
    userId: string,
    timestamp: int)

  /** A participant. The server stores `name` as whatever the join message
      carried (possibly nothing) and stamps `joinedAt`; users built by the
      client carry no `joinedAt`. */
  datatype User = User(
    id: string,
    name: Option<string>,
    color: string,
    cursor: Option<Point>,
    joinedAt: Option<int>)

  /** A `Partial<DrawingElement>`: `None` means the key is absent, so the
      spread `{ ...element, ...patch }` keeps the element's own value. */
  datatype ElementPatch = ElementPatch(
    id: Option<string>,
    kind: Option<Kind>,
    points: Option<seq<Point>>,
    style: Option<Style>,
    text: Option<Option<string>>,
    userId: Option<string>,
    timestamp: Option<int>)

  const NoElementChanges := ElementPatch(None, None, None, None, None, None, None)

  /** `{ ...e, ...p }` for an element and a partial element. */
  function Merge(e: DrawingElement, p: ElementPatch): DrawingElement {
    DrawingElement(
      p.id.GetOr(e.id),
      p.kind.GetOr(e.kind),
      p.points.GetOr(e.points),
      p.style.GetOr(e.style),
      p.text.GetOr(e.text),
      p.userId.GetOr(e.userId),
      p.timestamp.GetOr(e.timestamp))
  }

  /** A `Partial<User>`, read like `ElementPatch`. */
  datatype UserPatch = UserPatch(
    id: Option<string>,
    name: Option<Option<string>>,
    color: Option<string>,
    cursor: Option<Option<Point>>,
    joinedAt: Option<Option<int>>)

  /** The patch `{ cursor: position }`; an undefined position is still a
      present key, so it erases the cursor. */
  function CursorPatch(position: Option<Point>): UserPatch {
    UserPatch(None, None, None, Some(position), None)
  }

  /** `{ ...u, ...p }` for a user and a partial user. */
  function MergeUser(u: User, p: UserPatch): User {
    User(
      p.id.GetOr(u.id),
      p.name.GetOr(u.name),
      p.color.GetOr(u.color),
      p.cursor.GetOr(u.cursor),
      p.joinedAt.GetOr(u.joinedAt))
  }

  /** `elements.filter(el => el.id !== key)`, where `key` is `None` when
      the key read from the payload is `undefined` (an element always has an
      id, so then nothing is removed). */
  function KeepOthers(els: seq<DrawingElement>, key: Option<string>): (r: seq<DrawingElement>)
    ensures forall e :: e in r <==> e in els && Some(e.id) != key
    ensures (forall e :: e in els ==> Some(e.id) != key) ==> r == els
    ensures |r| <= |els|
  {
    if els == [] then []
    else if Some(els[0].id) != key then [els[0]] + KeepOthers(els[1..], key)
    else KeepOthers(els[1..], key)
  }

  /** Filtering distributes over concatenation: together with the one-element
      case this says the kept elements stay in their original order. */
  lemma {:induction false} KeepOthersAppend(a: seq<DrawingElement>, b: seq<DrawingElement>, key: Option<string>)
    ensures KeepOthers(a + b, key) == KeepOthers(a, key) + KeepOthers(b, key)
  {
    if a == [] {
      assert a + b == b;
    } else {
      assert (a + b)[1..] == a[1..] + b;
      KeepOthersAppend(a[1..], b, key);
    }
  }

  /** Deleting twice is deleting once. */
  lemma KeepOthersIdempotent(els: seq<DrawingElement>, key: Option<string>)
    ensures KeepOthers(KeepOthers(els, key), key) == KeepOthers(els, key)
  {
  }

  /** The wire message tags. `ClearCanvas` is handled by the server but is
      missing from the client's tag union; any other tag is `OtherType`. */
  datatype MsgType =
    | InitialState | ElementAdded | ElementUpdated | ElementDeleted
    | CursorMoved | UserJoined | UserLeft | ClearCanvas
    | OtherType(tag: string)

  /** A decoded `data` payload, one case per shape that travels on the wire. */
  datatype Data =
    | ElementData(element: DrawingElement)          // a whole element
    | PatchData(patch: ElementPatch)                // a partial element
    | TextData(text: string)                        // a bare string (an element id)
    | CursorData(position: Point)                   // { position }
    | UserData(userId: Option<string>, name: Option<string>)  // { userId?, name? }
    | SnapshotData(elements: Option<seq<DrawingElement>>, users: Option<seq<User>>)
    | NullData                                      // null, or no data at all

  datatype Message = Message(kind: MsgType, data: Data, userId: string, timestamp: int)

  /** A frame as the receiver sees it: decoded, or not valid JSON. */
  datatype Inbound = Parsed(msg: Message) | Malformed

  /** `data.id` */
  function FieldId(d: Data): Option<string> {
    match d
    case ElementData(e) => Some(e.id)
    case PatchData(p) => p.id
    case _ => None
  }

  /** `data.name` */
  function FieldName(d: Data): Option<string> {
    match d
    case UserData(_, n) => n
    case _ => None
  }

  /** `data.userId` (an element carries its author's id under that key). */
  function FieldUserId(d: Data): Option<string> {
    match d
    case ElementData(e) => Some(e.userId)
    case PatchData(p) => p.userId
    case UserData(u, _) => u
    case _ => None
  }

  /** `data.position` */
  function FieldPosition(d: Data): Option<Point> {
    match d
    case CursorData(p) => Some(p)
    case _ => None
  }

  /** The fields `{ ...element, ...data }` overwrites on an element: those of
      an element or partial element payload (an element without `text`
      leaves the old text, as JSON drops undefined keys). Other payloads
      never reach this spread, because they carry no `id` to match. */
  function PatchOf(d: Data): ElementPatch {
    match d
    case ElementData(e) =>
      ElementPatch(Some(e.id), Some(e.kind), Some(e.points), Some(e.style),
                   if e.text.Some? then Some(e.text) else None,
                   Some(e.userId), Some(e.timestamp))
    case PatchData(p) => p
    case _ => NoElementChanges
  }
}
