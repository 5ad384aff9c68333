/** The index-logs screen of the channels copy (components/channels): the
    same usage merge as the top-level screen, search-API logs stored as
    returned, no pagination, and error texts taken from the server's
    response when it supplies one. */
module ChannelLogs {
  import opened Common
  import opened Usage
  import opened IndexLogs

  /** The text shown for a failed call: the response's `message` when the
      failure is an axios error with a response whose message is non-empty,
      and the fetch-records message otherwise. */
  function ErrorText(fault: Fault): (m: Message)
    ensures fault.WithResponse? && fault.message != "" ==> m == ServerMessage(fault.message)
    ensures !(fault.WithResponse? && fault.message != "") ==> m == FetchRecordsError
  {
    match fault
    case WithResponse(text) => if text != "" then ServerMessage(text) else FetchRecordsError
    case NoResponse => FetchRecordsError
  }

  /** A server-supplied text is shown exactly when the server sent one. */
  lemma ErrorTextFromServer(fault: Fault, text: string)
    ensures ErrorText(fault) == ServerMessage(text) <==> fault == WithResponse(text) && text != ""
  {
  }

  /** The state of the channels index-logs screen: its `useState` slots. */
  class ChannelLogsScreen {
    var index: string
    var logs: seq<UsageRow>
    var searchLogs: seq<SearchLog>
    var error: Option<Message>

    constructor ()
      ensures index == "" && logs == [] && searchLogs == [] && error == None
    {
      index, logs, searchLogs, error := "", [], [], None;
    }

    /** The index input's change handler. */
    method EditIndex(name: string)
      modifies this`index
      ensures index == name
    {
      index := name;
    }

    /** `fetchLogs`: an empty index is refused before any request. A failed
        call shows ErrorText of its fault; a malformed body throws a
        non-axios error inside the `try` and shows the default text. */
    method FetchLogs(usage: Response<UsageBody>) returns (requested: bool)
      modifies this`logs, this`error
      ensures requested <==> index != ""
      ensures !requested ==> error == Some(IndexRequired) && logs == old(logs)
      ensures requested && usage.Ok? && UsageRows(usage.data).Some? ==>
        logs == UsageRows(usage.data).value && error == None
      ensures requested && usage.Ok? && UsageRows(usage.data).None? ==>
        logs == [] && error == Some(FetchRecordsError)
      ensures requested && usage.Failed? ==>
        logs == [] && error == Some(ErrorText(usage.fault))
    {
      if index == "" {
        error := Some(IndexRequired);
        return false;
      }
      requested := true;
      match usage
      case Failed(fault) =>
        error := Some(ErrorText(fault));
        logs := [];
      case Ok(body) =>
        var rows := BuildUsageRows(body);
        match rows
        case Some(r) =>
          logs := r;
          error := None;
        case None =>
          error := Some(FetchRecordsError);
          logs := [];
    }

    /** `fetchSearchLogs`: the returned `logs` array is stored unchanged; a
        failed call shows ErrorText of its fault and empties the list. */
    method FetchSearchLogs(response: Response<seq<SearchLog>>)
      modifies this`searchLogs, this`error
      ensures response.Ok? ==> searchLogs == response.data && error == None
      ensures response.Failed? ==> searchLogs == [] && error == Some(ErrorText(response.fault))
    {
      match response
      case Ok(entries) =>
        searchLogs := entries;
        error := None;
      case Failed(fault) =>
        error := Some(ErrorText(fault));
        searchLogs := [];
    }
  }
}
