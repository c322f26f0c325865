/**
 * The response envelopes of the Xen-API surface: the two-key dictionaries
 * that every handler and every guard returns (XendAPI.py lines 29-38, and
 * the guard rejections at lines 62-63, 84-85, 106-107, 128-129, 150-151).
 */
module Envelope {
  import opened Wrappers

  /** The value stored under "Status". Handlers answer "Success" or "Error";
      the reference guards answer "Failure", a third literal. */
  datatype Status = Success | Error | Failure

  /** The XEND_ERROR_* codes the core uses. Their string spellings live in
      XendAPIConstants, which is not part of this model. */
  datatype ErrorCode =
    | AuthenticationFailed
    | SessionInvalid
    | HostInvalid
    | HostCpuInvalid
    | VmInvalid
    | VbdInvalid
    | VifInvalid
    | DomainInvalid
    | HostRunning
    | Unsupported
    | Todo

  /** A value crossing the RPC surface: a string, a struct (a dictionary keyed
      by strings), or any other object, told apart by an identity. */
  datatype Datum = Str(s: string) | Struct(fields: map<string, Datum>) | Other(id: int)

  /** The second key of a response: "Value" or "ErrorDescription". */
  datatype Field = Value(value: Datum) | ErrorDescription(code: ErrorCode)

  /** A response dictionary {"Status": status, <key of field>: <content of field>}. */
  datatype Response = Response(status: Status, field: Field)

  /** What a client reads from a response: the value of a success. */
  function Carried(r: Response): Option<Datum>
  {
    if r.status == Success && r.field.Value? then Some(r.field.value) else None
  }

  /** What a client reads from a response: the code of an "Error" answer. */
  function Reported(r: Response): Option<ErrorCode>
  {
    if r.status == Error && r.field.ErrorDescription? then Some(r.field.code) else None
  }

  /** What a client reads from a response: the code of a "Failure" answer. */
  function Refused(r: Response): Option<ErrorCode>
  {
    if r.status == Failure && r.field.ErrorDescription? then Some(r.field.code) else None
  }

  /** xen_api_success: a success carrying v and nothing else. */
  function ApiSuccess(v: Datum): (r: Response)
    ensures Carried(r) == Some(v)
    ensures Reported(r) == None && Refused(r) == None
  {
    Response(Success, Value(v))
  }

  /** xen_api_success_void: a success whose value is the empty string, because
      the wire schema needs a value even when the caller expects none. */
  function ApiSuccessVoid(): (r: Response)
    ensures Carried(r) == Some(Str(""))
    ensures Reported(r) == None && Refused(r) == None
  {
    ApiSuccess(Str(""))
  }

  /** xen_api_error: an "Error" answer with the given code. */
  function ApiError(e: ErrorCode): (r: Response)
    ensures Reported(r) == Some(e)
    ensures Carried(r) == None && Refused(r) == None
  {
    Response(Error, ErrorDescription(e))
  }

  /** xen_api_todo: the "not implemented yet" sentinel. The source spells the
      dictionary out rather than calling xen_api_error. */
  function ApiTodo(): (r: Response)
    ensures Reported(r) == Some(Todo)
    ensures Carried(r) == None && Refused(r) == None
  {
    Response(Error, ErrorDescription(Todo))
  }

  /** The dictionary a guard short-circuits with: status "Failure", not "Error". */
  function GuardFailure(e: ErrorCode): (r: Response)
    ensures Refused(r) == Some(e)
    ensures Carried(r) == None && Reported(r) == None
  {
    Response(Failure, ErrorDescription(e))
  }

  /** The helpers build the shapes the surface promises: a void success is a
      success of "", a TODO is an error like any other, and a guard rejection
      is never mistaken for an error with the same code. */
  lemma EnvelopeShapes(e: ErrorCode)
    ensures ApiSuccessVoid() == ApiSuccess(Str(""))
    ensures ApiTodo() == ApiError(Todo)
    ensures GuardFailure(e) != ApiError(e)
    ensures forall v :: ApiSuccess(v) != ApiError(e) && ApiSuccess(v) != GuardFailure(e)
  {
  }
}
