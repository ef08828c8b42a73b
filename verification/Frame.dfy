/**
 The OCPP-J framing of section 4.2 of the OCPP-J 1.6 specification: CALL, CALLRESULT and
 CALLERROR arrays, their encoders and the one parser both ends share. Bytes are represented by
 the JSON document they spell; a message that is not JSON at all is NotJson.
 */
module Frame {
  import opened Text

  /** A JSON document. Number keeps literals such as 2.0 or 2e0, which no integer accepts. */
  datatype Json =
    | Null
    | Bool(b: bool)
    | Integer(n: int)
    | Number(text: string)
    | Str(s: string)
    | Arr(items: seq<Json>)
    | Obj(fields: map<string, Json>)

  datatype Wire = NotJson | Doc(json: Json)

  /** A Go value handed to the JSON encoder: nil, something with an encoding, or neither. */
  datatype Value = Nil | Of(json: Json) | Unencodable

  const CALL := 2
  const CALL_RESULT := 3
  const CALL_ERROR := 4

  const UNKNOWN_MESSAGE_ID := "-1"
  const RPC_FRAMEWORK_ERROR := "RpcFrameworkError"
  const INTERNAL_ERROR := "InternalError"

  datatype RpcError = RpcError(code: string, description: string, details: Value)

  datatype Frame =
    | Call(id: string, action: string, payload: Json)
    | CallResult(id: string, payload: Json)
    | CallError(id: string, code: string, description: string, details: Option<Json>)

  /** Why a message is not an RPC frame; each becomes an RpcFrameworkError description. */
  datatype Defect =
    | NotArray | TooShort | TypeNotNumber | IdNotString | IdEmpty
    | CallArity | ActionNotString | ActionEmpty
    | ResultArity | ErrorArity | CodeNotString | UnknownType

  datatype Parse = Parsed(frame: Frame) | Malformed(answerId: string, defect: Defect)

  function Describe(d: Defect): (s: string) {
    match d
    case NotArray => "message is not a JSON array"
    case TooShort => "message has too few elements, want at least 3"
    case TypeNotNumber => "message type id is not a number"
    case IdNotString => "message id is not a string"
    case IdEmpty => "message id is empty"
    case CallArity => "CALL has the wrong number of elements, want 4"
    case ActionNotString => "action is not a string"
    case ActionEmpty => "action is empty"
    case ResultArity => "CALLRESULT has the wrong number of elements, want 3"
    case ErrorArity => "CALLERROR has too few elements, want at least 4"
    case CodeNotString => "error code is not a string"
    case UnknownType => "unknown message type id"
  }

  function DefectError(d: Defect): RpcError {
    RpcError(RPC_FRAMEWORK_ERROR, Describe(d), Nil)
  }

  // The decoder's view of one value: null leaves the zero value in place.

  function AsInt(j: Json): Option<int> {
    match j
    case Null => Some(0)
    case Integer(n) => if -0x8000_0000_0000_0000 <= n < 0x8000_0000_0000_0000 then Some(n) else None
    case _ => None
  }

  function AsString(j: Json): Option<string> {
    match j
    case Null => Some("")
    case Str(s) => Some(s)
    case _ => None
  }

  function AsArray(w: Wire): Option<seq<Json>> {
    match w
    case Doc(Null) => Some([])
    case Doc(Arr(items)) => Some(items)
    case _ => None
  }

  function ParseFrame(w: Wire): Parse {
    if AsArray(w).None? then Malformed(UNKNOWN_MESSAGE_ID, NotArray) else
    var raw := AsArray(w).value;
    if |raw| < 3 then Malformed(UNKNOWN_MESSAGE_ID, TooShort) else
    if AsInt(raw[0]).None? then Malformed(UNKNOWN_MESSAGE_ID, TypeNotNumber) else
    if AsString(raw[1]).None? then Malformed(UNKNOWN_MESSAGE_ID, IdNotString) else
    var id := AsString(raw[1]).value;
    if id == "" then Malformed(UNKNOWN_MESSAGE_ID, IdEmpty) else
    ParseBody(AsInt(raw[0]).value, id, raw)
  }

  function ParseBody(typ: int, id: string, raw: seq<Json>): Parse
    requires |raw| >= 3
  {
    if typ == CALL then
      if |raw| != 4 then Malformed(id, CallArity) else
      var action := AsString(raw[2]);
      if action.None? then Malformed(id, ActionNotString) else
      if action.value == "" then Malformed(id, ActionEmpty) else
      Parsed(Call(id, action.value, raw[3]))
    else if typ == CALL_RESULT then
      if |raw| != 3 then Malformed(id, ResultArity) else
      Parsed(CallResult(id, raw[2]))
    else if typ == CALL_ERROR then
      if |raw| < 4 then Malformed(id, ErrorArity) else
      var code := AsString(raw[2]);
      if code.None? then Malformed(id, CodeNotString) else
      // A description that is not a string is read as empty rather than refused.
      var description := if AsString(raw[3]).Some? then AsString(raw[3]).value else "";
      Parsed(CallError(id, code.value, description, if |raw| > 4 then Some(raw[4]) else None))
    else
      Malformed(id, UnknownType)
  }

  /** A nil value is sent as an empty object. */
  function Payload(v: Value): Option<Json> {
    match v
    case Nil => Some(Obj(map[]))
    case Of(j) => Some(j)
    case Unencodable => None
  }

  function EncodeCall(id: string, action: string, payload: Value): Option<Wire> {
    if Payload(payload).None? then None
    else Some(Doc(Arr([Integer(CALL), Str(id), Str(action), Payload(payload).value])))
  }

  function EncodeCallResult(id: string, payload: Value): Option<Wire> {
    if Payload(payload).None? then None
    else Some(Doc(Arr([Integer(CALL_RESULT), Str(id), Payload(payload).value])))
  }

  function EncodeCallError(id: string, e: RpcError): Option<Wire> {
    if Payload(e.details).None? then None
    else Some(Doc(Arr([Integer(CALL_ERROR), Str(id), Str(e.code), Str(e.description), Payload(e.details).value])))
  }

  /**
   What goes on the wire: arrays of type 2, 3 and 4 as section 4.2 has them, nil sent as an empty
   object, and nothing at all exactly if a value has no encoding.
   */
  lemma EncodedExactly(id: string, action: string, v: Value, e: RpcError)
    ensures EncodeCall(id, action, v).None? <==> v == Unencodable
    ensures EncodeCallResult(id, v).None? <==> v == Unencodable
    ensures EncodeCallError(id, e).None? <==> e.details == Unencodable
    ensures forall j :: v == Of(j) || (v == Nil && j == Obj(map[])) ==>
              && EncodeCall(id, action, v) == Some(Doc(Arr([Integer(2), Str(id), Str(action), j])))
              && EncodeCallResult(id, v) == Some(Doc(Arr([Integer(3), Str(id), j])))
    ensures forall j :: e.details == Of(j) || (e.details == Nil && j == Obj(map[])) ==>
              EncodeCallError(id, e) == Some(Doc(Arr([Integer(4), Str(id), Str(e.code), Str(e.description), j])))
  {
  }

  /** A CALL survives the wire exactly when its id and action are not empty. */
  lemma CallRoundTrip(id: string, action: string, payload: Value)
    requires payload != Unencodable
    ensures EncodeCall(id, action, payload).Some?
    ensures var p := ParseFrame(EncodeCall(id, action, payload).value);
            && (p == Parsed(Call(id, action, Payload(payload).value)) <==> id != "" && action != "")
            && (id != "" && action == "" ==> p == Malformed(id, ActionEmpty))
            && (id == "" ==> p == Malformed(UNKNOWN_MESSAGE_ID, IdEmpty))
  {
  }

  lemma CallResultRoundTrip(id: string, payload: Value)
    requires payload != Unencodable && id != ""
    ensures EncodeCallResult(id, payload).Some?
    ensures ParseFrame(EncodeCallResult(id, payload).value) == Parsed(CallResult(id, Payload(payload).value))
  {
  }

  lemma CallErrorRoundTrip(id: string, e: RpcError)
    requires e.details != Unencodable && id != ""
    ensures EncodeCallError(id, e).Some?
    ensures ParseFrame(EncodeCallError(id, e).value)
            == Parsed(CallError(id, e.code, e.description, Some(Payload(e.details).value)))
  {
  }

  /** What re-encoding a parsed frame puts on the wire. */
  function Reencode(f: Frame): Option<Wire> {
    match f
    case Call(id, action, payload) => EncodeCall(id, action, Of(payload))
    case CallResult(id, payload) => EncodeCallResult(id, Of(payload))
    case CallError(id, code, description, details) =>
      EncodeCallError(id, RpcError(code, description, if details.Some? then Of(details.value) else Nil))
  }

  /** A frame's canonical form: a CALLERROR sent without details is read back with empty ones. */
  function Canonical(f: Frame): Frame {
    match f
    case CallError(id, code, description, None) => CallError(id, code, description, Some(Obj(map[])))
    case _ => f
  }

  /**
   The parser tolerates nulls, missing details and odd descriptions. However lenient it was,
   what it accepted can be sent on and is read back as the same frame, and a refusal is
   answered under an id that is never empty.
   */
  lemma ParseNormalises(w: Wire)
    ensures match ParseFrame(w)
            case Parsed(f) =>
              && f.id != ""
              && (f.Call? ==> f.action != "")
              && Reencode(f).Some?
              && ParseFrame(Reencode(f).value) == Parsed(Canonical(f))
            case Malformed(id, d) => id != "" && EncodeCallError(id, DefectError(d)).Some?
  {
  }

  /** The text of a value, as far as it can be read as one; null reads as empty. */
  predicate Reads(j: Json, s: string) { j == Str(s) || (j == Null && s == "") }

  /** The message type and id of an array, when both can be read and the id is not empty. */
  predicate Headed(items: seq<Json>, typ: int, id: string) {
    && |items| >= 3 && id != "" && items[1] == Str(id)
    && -0x8000_0000_0000_0000 <= typ < 0x8000_0000_0000_0000
    && (items[0] == Integer(typ) || (items[0] == Null && typ == 0))
  }

  /**
   Which messages are frames. A CALL is a headed array of type 2 with exactly four elements and a
   non-empty action; a CALLRESULT one of type 3 with exactly three; a CALLERROR one of type 4 with
   four elements or more and a readable code, whose description is empty if it cannot be read and
   whose details are the fifth element if there is one.
   */
  lemma ParsedExactly(w: Wire, id: string)
    ensures forall action, payload :: ParseFrame(w) == Parsed(Call(id, action, payload)) <==>
              && w.Doc? && w.json.Arr? && Headed(w.json.items, 2, id) && action != ""
              && w.json.items == w.json.items[..2] + [Str(action), payload]
    ensures forall payload :: ParseFrame(w) == Parsed(CallResult(id, payload)) <==>
              w.Doc? && w.json.Arr? && Headed(w.json.items, 3, id) && w.json.items == w.json.items[..2] + [payload]
    ensures forall code, description, details ::
              ParseFrame(w) == Parsed(CallError(id, code, description, details)) <==>
              && w.Doc? && w.json.Arr? && Headed(w.json.items, 4, id) && |w.json.items| >= 4
              && Reads(w.json.items[2], code)
              && (if w.json.items[3].Str? then description == w.json.items[3].s else description == "")
              && details == if |w.json.items| == 4 then None else Some(w.json.items[4])
  {
  }

  /**
   Under which id a message is refused: its own if the array is headed, and "-1" otherwise. A
   headed array of an unknown type, of the wrong length or with an unreadable action or code is
   refused, and nothing else is.
   */
  lemma RefusedExactly(w: Wire, typ: int, id: string)
    ensures w.Doc? && w.json.Arr? && Headed(w.json.items, typ, id) ==>
              match ParseFrame(w)
              case Parsed(f) =>
                f.id == id && (f.Call? <==> typ == 2) && (f.CallResult? <==> typ == 3) && (f.CallError? <==> typ == 4)
              case Malformed(answerId, d) =>
                && answerId == id
                && (d.UnknownType? <==> typ !in {2, 3, 4})
                && (d.CallArity? <==> typ == 2 && |w.json.items| != 4)
                && (d.ResultArity? <==> typ == 3 && |w.json.items| != 3)
                && (d.ErrorArity? <==> typ == 4 && |w.json.items| == 3)
                && (d.ActionNotString? || d.ActionEmpty? ==> typ == 2)
                && (d.CodeNotString? ==> typ == 4)
    ensures (forall t: int, i: string :: !(w.Doc? && w.json.Arr? && Headed(w.json.items, t, i))) ==>
              ParseFrame(w).Malformed? && ParseFrame(w).answerId == "-1"
  {
    if w.Doc? && w.json.Arr? && |w.json.items| >= 3 && w.json.items[1].Str? && AsInt(w.json.items[0]).Some? {
      assert w.json.items[1].s != "" ==> Headed(w.json.items, AsInt(w.json.items[0]).value, w.json.items[1].s);
    }
  }
}
