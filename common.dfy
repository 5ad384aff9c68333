/** Values shared by every screen of the configurator: optional values, the
    outcome of one HTTP call, and the kinds of message a screen can show. */
module Common {

  datatype Option<+T> = None | Some(value: T)

  /** Why an HTTP call failed, as far as the screens look at it: an axios
      error with no response (network failure), or one that carries a
      response whose body may hold a `message` ("" when it holds none). */
  datatype Fault = NoResponse | WithResponse(message: string)

  /** The outcome of one awaited HTTP call: its response body, or a fault. */
  datatype Response<+T> = Ok(data: T) | Failed(fault: Fault)

  /** The texts a screen puts into its `error` or `success` slot, one
      constructor per message of the message tables, plus a text copied from
      a server response. */
  datatype Message =
    | FetchRecordsError
    | DeleteRecordError
    | IndexRequired
    | GeneralError
    | FetchFailed
    | InvalidJson
    | UpdateFailed
    | SettingsFetched
    | ConfigUpdated
    | ServerMessage(text: string)
}
