/** The update-configuration screen: fetch an index's settings document,
    and replace it with a JSON text typed by the operator. The copies in
    components/update-configuration and components/channels have the same
    handlers, so one model serves both. */
module UpdateConfiguration {
  import opened Common

  /** A settings document as the service returns or accepts it; its JSON
      structure is not looked into. */
  datatype Settings = Settings(document: string)

  /** The five `useState` slots of the screen. */
  datatype SettingsSlots = SettingsSlots(
    indexName: string,
    indexConfig: string,
    currentSettings: Option<Settings>,
    error: Option<Message>,
    success: Option<Message>)

  /** `handleFetchSettings`. An empty name throws a plain Error inside the
      `try`, which is not an axios error, so the general message is shown
      (not the missing-fields one). */
  function FetchSettingsStep(s: SettingsSlots, response: Response<Settings>): (r: SettingsSlots)
    ensures r.indexName == s.indexName && r.indexConfig == s.indexConfig
    ensures r.error.Some? != r.success.Some?
    ensures r.error == Some(GeneralError) <==> s.indexName == ""
    ensures r.error == Some(FetchFailed) <==> s.indexName != "" && response.Failed?
    ensures r.success.Some? <==> s.indexName != "" && response.Ok?
    ensures r.success.Some? ==> r.success == Some(SettingsFetched) && r.currentSettings == Some(response.data)
    ensures r.error.Some? ==> r.currentSettings == None
  {
    if s.indexName == "" then
      s.(currentSettings := None, error := Some(GeneralError), success := None)
    else
      match response
      case Ok(data) => s.(currentSettings := Some(data), error := None, success := Some(SettingsFetched))
      case Failed(_) => s.(currentSettings := None, error := Some(FetchFailed), success := None)
  }

  /** The body of the PUT `handleUpdate` sends, or None when it sends none:
      both inputs must be non-empty and the config must parse. */
  function UpdateRequest(s: SettingsSlots, parseJson: string -> Option<Settings>): (sent: Option<Settings>)
    ensures sent.Some? <==> s.indexName != "" && s.indexConfig != "" && parseJson(s.indexConfig).Some?
    ensures sent.Some? ==> sent == parseJson(s.indexConfig)
  {
    if s.indexName == "" || s.indexConfig == "" then None else parseJson(s.indexConfig)
  }

  /** `handleUpdate`. Each failure has its own message: missing input throws
      a plain Error (general message), a parse failure a SyntaxError (invalid
      JSON), a failed PUT an axios error (update failed). Failures keep the
      inputs and the shown settings; success clears all three. */
  function UpdateStep(s: SettingsSlots, parseJson: string -> Option<Settings>, put: Response<()>): (r: SettingsSlots)
    ensures r.error.Some? != r.success.Some?
    ensures r.error == Some(GeneralError) <==> s.indexName == "" || s.indexConfig == ""
    ensures r.error == Some(InvalidJson) <==>
      s.indexName != "" && s.indexConfig != "" && parseJson(s.indexConfig).None?
    ensures r.error == Some(UpdateFailed) <==> UpdateRequest(s, parseJson).Some? && put.Failed?
    ensures r.success.Some? <==> UpdateRequest(s, parseJson).Some? && put.Ok?
    ensures r.success.Some? ==>
      r.success == Some(ConfigUpdated) && r.indexName == "" && r.indexConfig == "" && r.currentSettings == None
    ensures r.error.Some? ==>
      r.indexName == s.indexName && r.indexConfig == s.indexConfig && r.currentSettings == s.currentSettings
  {
    if s.indexName == "" || s.indexConfig == "" then
      s.(error := Some(GeneralError), success := None)
    else
      match parseJson(s.indexConfig)
      case None => s.(error := Some(InvalidJson), success := None)
      case Some(_) =>
        match put
        case Ok(_) => s.(indexName := "", indexConfig := "", currentSettings := None, error := None, success := Some(ConfigUpdated))
        case Failed(_) => s.(error := Some(UpdateFailed), success := None)
  }

  /** After a successful update the name input is empty, so fetching the
      settings straight away ends in the general error without a request. */
  lemma FetchAfterUpdate(s: SettingsSlots, parseJson: string -> Option<Settings>, response: Response<Settings>)
    requires UpdateStep(s, parseJson, Ok(())).success.Some?
    ensures FetchSettingsStep(UpdateStep(s, parseJson, Ok(())), response).error == Some(GeneralError)
  {
  }

  /** The state of one update-configuration screen. */
  class SettingsScreen {
    var indexName: string
    var indexConfig: string
    var currentSettings: Option<Settings>
    var error: Option<Message>
    var success: Option<Message>

    function Slots(): SettingsSlots
      reads this
    {
      SettingsSlots(indexName, indexConfig, currentSettings, error, success)
    }

    constructor ()
      ensures Slots() == SettingsSlots("", "", None, None, None)
    {
      indexName, indexConfig, currentSettings := "", "", None;
      error, success := None, None;
    }

    /** The index-name input's change handler. */
    method EditIndexName(name: string)
      modifies this`indexName
      ensures indexName == name
    {
      indexName := name;
    }

    /** The config input's change handler. */
    method EditIndexConfig(config: string)
      modifies this`indexConfig
      ensures indexConfig == config
    {
      indexConfig := config;
    }

    /** `handleFetchSettings`; `requested` tells whether the GET was sent. */
    method HandleFetchSettings(response: Response<Settings>) returns (requested: bool)
      modifies this
      ensures Slots() == FetchSettingsStep(old(Slots()), response)
      ensures requested <==> old(indexName) != ""
    {
      requested := indexName != "";
      if !requested {
        error := Some(GeneralError);
        currentSettings := None;
        success := None;
        return;
      }
      match response
      case Ok(data) =>
        currentSettings := Some(data);
        error := None;
        success := Some(SettingsFetched);
      case Failed(_) =>
        error := Some(FetchFailed);
        currentSettings := None;
        success := None;
    }

    /** `handleUpdate`, with `JSON.parse` given as `parseJson`; `sent` is the
        body of the PUT, None when no request was sent. */
    method HandleUpdate(parseJson: string -> Option<Settings>, put: Response<()>) returns (sent: Option<Settings>)
      modifies this
      ensures Slots() == UpdateStep(old(Slots()), parseJson, put)
      ensures sent == UpdateRequest(old(Slots()), parseJson)
    {
      if indexName == "" || indexConfig == "" {
        error := Some(GeneralError);
        success := None;
        return None;
      }
      sent := parseJson(indexConfig);
      if sent.None? {
        error := Some(InvalidJson);
        success := None;
        return;
      }
      match put
      case Ok(_) =>
        success := Some(ConfigUpdated);
        indexName := "";
        indexConfig := "";
        error := None;
        currentSettings := None;
      case Failed(_) =>
        error := Some(UpdateFailed);
        success := None;
    }
  }
}
