/**
 Failure-carrying datatypes shared by the whole client, and the error values
 the client returns. Go's `error` results become `Outcome` (nil is `Pass`),
 and Go's `(value, error)` pairs become `Result<T>`.
 */
module Errors {

  datatype Option<+T> = None | Some(value: T)

  /** Which of the two authentication calls produced an error: the Go code
      prefixes its messages with "login:" or "refresh:". */
  datatype AuthOp = LoginOp | RefreshOp

  datatype Error =
    // json.go lookups
    | JsonNotAMap
    | JsonMemberNotFound(member: string)
    | JsonNotASlice
    | JsonOutOfBounds(index: int)
      // the reply body is not JSON (json.Unmarshal failed)
    | Unmarshal(body: string)
      // parseJSONError's envelope errors
    | ImdataMissing(body: string)
    | ImdataNotList(body: string)
    | Remote(code: string, text: string)
      // Login / Refresh envelope errors
    | AuthImdataMissing(op: AuthOp, body: string)
    | AuthImdataFirst(op: AuthOp, body: string)
    | AuthFirstNotMap(op: AuthOp, body: string)
    | AuthRemote(op: AuthOp, code: string, text: string)
    | AuthNoLogin(op: AuthOp, body: string)
      // New
    | MissingHosts
    | BlankHost(host: string)
    | MissingUser
    | MissingPass
      // transport
    | BadApi(api: string)
    | NoMoreHosts(last: Option<Error>)
    | Transport(reason: string)
      // the Go code indexes Hosts[host] with the cursor past the end: a run-time panic
    | CursorOutOfRange(cursor: int)
      // interface.go
    | BadInterfaceValue(ifName: string)
    | UnexpectedInterfaceType(ifType: string)
    | UnexpectedInterfaceForGet(ifName: string)

  datatype Result<+T> = Ok(value: T) | Err(error: Error)

  /** A Go `error` result: `Pass` stands for nil. */
  datatype Outcome = Pass | Fail(error: Error)
}
