/**
 * The parts of the remote API's messages that the client builds or reads,
 * and the serialisation codec. The codec (cloudpickle) and the protobuf
 * `Any` container are opaque here: encoding is a constructor that wraps the
 * value, decoding takes the wrapper apart, so every encoding decodes back
 * to what was encoded and nothing else is assumed about the bytes.
 */
module Api {
  import opened Wrappers

  /** A Python value as far as the client needs to see it. */
  datatype PyValue =
    | Atom(repr: string)
    | Tuple(items: seq<PyValue>)
    | Dict(entries: seq<(string, PyValue)>)
    | Callable(name: string)

  /** Serialised bytes: `client.serialize(v)`, or an empty payload. */
  datatype Blob = Empty | Pickled(value: PyValue)

  datatype CodecError = EmptyPayload

  function Serialize(v: PyValue): Blob {
    Pickled(v)
  }

  /** `client.deserialize`: an empty payload cannot be unpickled. */
  function Deserialize(b: Blob): (r: Result<PyValue, CodecError>)
    ensures b.Pickled? <==> r.Ok?
  {
    match b
    case Empty => Err(EmptyPayload)
    case Pickled(v) => Ok(v)
  }

  lemma DeserializeSerialize(v: PyValue)
    ensures Deserialize(Serialize(v)) == Ok(v)
  {
  }

  /**
   * The wire numbers of the named `GenericResult.Status` values: 0 is the
   * unset status, which Python reads as false, then SUCCESS and FAILURE.
   */
  const UnsetCode := 0
  const SuccessCode := 1
  const FailureCode := 2

  /** A wire number that names none of the statuses the client knows. */
  type UnknownCode = c: int | c != UnsetCode && c != SuccessCode && c != FailureCode witness 3

  /** `GenericResult.Status`; a value the client does not know keeps its number. */
  datatype Status = Unspecified | Success | Failure | Unrecognised(code: UnknownCode)

  datatype GenericResult = GenericResult(status: Status, data: Blob, exception: string, traceback: string)

  /** What an unset `GenericResult` reads as. */
  const DefaultResult := GenericResult(Unspecified, Empty, "", "")

  /** One input of a function call, as `FunctionInput`. */
  datatype FunctionInput = FunctionInput(args: Blob, kwargs: Blob, outputBufferId: string)

  /** `google.protobuf.Any`: a packed message of one of the two kinds the buffers carry. */
  datatype AnyMessage = PackedInput(input: FunctionInput) | PackedResult(result: GenericResult)

  datatype BufferItem = BufferItem(data: AnyMessage)

  /**
   * `Any.Unpack` into a `GenericResult`: a packed message of another type is
   * not an exception in Python, it leaves the target at its default value.
   */
  function UnpackResult(a: AnyMessage): (r: GenericResult)
    ensures a.PackedInput? ==> r.status == Unspecified
  {
    match a
    case PackedResult(res) => res
    case PackedInput(_) => DefaultResult
  }
}
