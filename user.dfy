/** The `fetch_user_info` tool: it checks that the run configuration carries a
    phone number and returns an empty record list; it looks at nothing else. */
module UserTool {
  import opened Base
  import opened State

  const NoPhoneNumber: Exception := Exception("ValueError", "No phone number configured.")

  /** The phone number entry of the configuration, with a missing
      `configurable` mapping read as an empty one and a missing entry as
      `None`. */
  function PhoneNumber(config: RunConfig): PyValue
  {
    var configuration := if config.configurable.Some? then config.configurable.value else map[];
    if "phone_number" in configuration then configuration["phone_number"] else PyNone
  }

  /** Succeeds with `[]` exactly when the configured phone number is truthy
      (present, not `None`, not empty); otherwise raises the `ValueError`. */
  function FetchUserInfo(config: RunConfig): (r: Result<UserInfo, Exception>)
    ensures r.Success? <==> config.configurable.Some? && "phone_number" in config.configurable.value
                            && config.configurable.value["phone_number"].PyStr?
                            && config.configurable.value["phone_number"].s != ""
    ensures r.Success? ==> r.value == []
    ensures r.Failure? ==> r.error == NoPhoneNumber
  {
    if !Truthy(PhoneNumber(config)) then Failure(NoPhoneNumber) else Success([])
  }

  /** Only the phone number entry is consulted: two configurations that agree
      on it give the same answer, whatever else they hold. */
  lemma OnlyPhoneNumberConsulted(c1: RunConfig, c2: RunConfig)
    requires PhoneNumber(c1) == PhoneNumber(c2)
    ensures FetchUserInfo(c1) == FetchUserInfo(c2)
  {
  }

  /** No `configurable` mapping at all is the error path, like an empty one. */
  lemma MissingConfigurableFails()
    ensures FetchUserInfo(RunConfig(None)) == Failure(NoPhoneNumber)
    ensures FetchUserInfo(RunConfig(Some(map[]))) == Failure(NoPhoneNumber)
  {
  }

  /** Any non-empty phone number is accepted, with no check of its format. */
  lemma AnyNonEmptyPhoneAccepted(phone: string, others: map<string, PyValue>)
    requires phone != ""
    ensures FetchUserInfo(RunConfig(Some(others["phone_number" := PyStr(phone)]))) == Success([])
  {
  }
}
