/** Canonical messages as every other module of the model sees them: a role, an ordered list of
    content parts, and the message's canonical JSON encoding, which may fail to exist. */
module Messages {

  newtype byte = b: int | 0 <= b < 256

  datatype Role = System | User | Assistant | Tool

  datatype Usage = Usage(inputTokens: nat, outputTokens: nat)

  datatype ToolCall = ToolCall(id: string, name: string, arguments: string)

  datatype Part =
    | TextPart(text: string)
    | ToolCallPart(call: ToolCall)
    | ToolResultPart(callId: string, result: string)

  /** The canonical encoding of one message, or the reason the serializer raised. */
  datatype Encoding = Encoded(bytes: seq<byte>) | Unencodable(reason: string)

  datatype Message = Message(id: nat, role: Role, content: seq<Part>, encoding: Encoding)

  function Size(m: Message): nat {
    match m.encoding
    case Encoded(bytes) => |bytes|
    case Unencodable(_) => 0
  }

  const OPEN_BRACKET: byte := 91
  const CLOSE_BRACKET: byte := 93
  const COMMA: byte := 44

  /** The comma-separated encodings of a list of messages. */
  function Joined(ms: seq<Message>): seq<byte>
    requires forall m | m in ms :: m.encoding.Encoded?
  {
    if |ms| == 0 then []
    else if |ms| == 1 then ms[0].encoding.bytes
    else Joined(ms[..|ms| - 1]) + [COMMA] + ms[|ms| - 1].encoding.bytes
  }

  /** The compact JSON array holding a list of messages. */
  function EncodeArray(ms: seq<Message>): seq<byte>
    requires forall m | m in ms :: m.encoding.Encoded?
  {
    [OPEN_BRACKET] + Joined(ms) + [CLOSE_BRACKET]
  }

  /** What a list of messages costs when each one is charged for itself and one separator. */
  function MessageCost(ms: seq<Message>): nat {
    if |ms| == 0 then 0 else MessageCost(ms[..|ms| - 1]) + 1 + Size(ms[|ms| - 1])
  }

  /** Charging a separator to every message counts the array's two brackets and its commas, off by
      one, except that an empty array still has two brackets. */
  lemma {:induction false} EncodedArrayLength(ms: seq<Message>)
    requires forall m | m in ms :: m.encoding.Encoded?
    ensures |EncodeArray(ms)| == (if |ms| == 0 then 2 else MessageCost(ms) + 1)
  {
    if |ms| > 1 {
      EncodedArrayLength(ms[..|ms| - 1]);
    } else if |ms| == 1 {
      assert MessageCost(ms[..0]) == 0;
    }
  }
}
