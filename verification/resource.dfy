/** The result vocabulary the host orchestrator consumes: operations,
    statuses, error codes and the result records the adapter fills in. */
module Resource {
  import opened Wrappers

  datatype Operation = OperationCreate | OperationUpdate | OperationDelete | OperationCheckStatus

  datatype OperationStatus = StatusSuccess | StatusFailure

  /** The host's error taxonomy; `NoErrorCode` is the empty code of a
      successful result. */
  datatype ErrorCode =
    | NoErrorCode
    | InvalidRequest
    | InvalidCredentials
    | AccessDenied
    | NotFound
    | Throttling
    | ServiceInternalError
    | InternalFailure

  /** Outcome of Create, Update, Delete and Status. An empty `nativeId`
      means no identifier is reported. */
  datatype ProgressResult = ProgressResult(
    operation: Operation,
    status: OperationStatus,
    errorCode: ErrorCode,
    nativeId: string)

  /** One page of a discovery listing. */
  datatype ListResult = ListResult(nativeIds: seq<string>, nextPageToken: Option<string>)
}
