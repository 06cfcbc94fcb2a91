/** Credential selection, `get_credentials(event)`: the api key and private
    key are read from the global settings under the test-mode names or the
    live names, chosen by the event's test-mode flag. */
module Helpers {
  import opened Base
  import opened VismaPay

  /** The global settings store: readable, with its stored values, or raising
      on every read */
  datatype Settings = Loaded(values: map<string, string>) | Unreadable

  const LIVE_API_KEY := "payment_visma_pay_api_key"
  const LIVE_PRIVATE_KEY := "payment_visma_pay_private_key"
  const TEST_API_KEY := "payment_visma_pay_test_api_key"
  const TEST_PRIVATE_KEY := "payment_visma_pay_test_private_key"

  /** The four settings the plugin registers for the global settings form,
      spelt as the registration spells them */
  const REGISTERED_SETTINGS: set<string> := {
    "payment_visma_pay_api_key",
    "payment_visma_pay_private_key",
    "payment_visma_pay_test_api_key",
    "payment_visma_pay_test_private_key"
  }

  function ApiKeySetting(testmode: bool): string
  {
    if testmode then TEST_API_KEY else LIVE_API_KEY
  }

  function PrivateKeySetting(testmode: bool): string
  {
    if testmode then TEST_PRIVATE_KEY else LIVE_PRIVATE_KEY
  }

  /** `get_credentials(event)`: a dictionary with exactly the keys `api_key`
      and `private_key`, each the stored setting or None; None stands for the
      `False` returned when reading the settings raises */
  function GetCredentials(testmode: bool, settings: Settings): (r: Option<map<string, Option<string>>>)
    ensures r.None? <==> settings.Unreadable?
    ensures r.Some? ==> r.value.Keys == {"api_key", "private_key"}
    ensures r.Some? && testmode ==>
      && r.value["api_key"] == Get(settings.values, "payment_visma_pay_test_api_key")
      && r.value["private_key"] == Get(settings.values, "payment_visma_pay_test_private_key")
    ensures r.Some? && !testmode ==>
      && r.value["api_key"] == Get(settings.values, "payment_visma_pay_api_key")
      && r.value["private_key"] == Get(settings.values, "payment_visma_pay_private_key")
  {
    match settings
    case Unreadable => None  // the exception is logged and False returned
    case Loaded(values) =>
      Some(map["api_key" := Get(values, ApiKeySetting(testmode)),
               "private_key" := Get(values, PrivateKeySetting(testmode))])
  }

  /** `credentials.get(name)`: None for a missing entry as for a None value,
      so the Option that `Get` wraps around the stored Option is flattened */
  function Credential(credentials: map<string, Option<string>>, name: string): Option<string>
  {
    match Get(credentials, name)
    case Some(v) => v
    case None => None
  }

  /** `VismaPayClient(credentials.get("api_key"), credentials.get("private_key"))`,
      as both the provider and the callback handler build it */
  function ClientFromCredentials(credentials: map<string, Option<string>>): (r: Client)
    ensures "api_key" in credentials ==> r.apiKey == credentials["api_key"]
    ensures "private_key" in credentials ==> r.privateKey == credentials["private_key"]
    ensures "api_key" !in credentials ==> r.apiKey.None?
    ensures "private_key" !in credentials ==> r.privateKey.None?
  {
    Client(Credential(credentials, "api_key"), Credential(credentials, "private_key"))
  }

  /** The client built from readable settings holds the two keys of one
      mode: never a test key with a live key */
  lemma {:induction false} KeysFromOneMode(testmode: bool, values: map<string, string>)
    ensures var client := ClientFromCredentials(GetCredentials(testmode, Loaded(values)).value);
      || (client.apiKey == Get(values, TEST_API_KEY) && client.privateKey == Get(values, TEST_PRIVATE_KEY))
      || (client.apiKey == Get(values, LIVE_API_KEY) && client.privateKey == Get(values, LIVE_PRIVATE_KEY))
  {
    var credentials := GetCredentials(testmode, Loaded(values)).value;
    assert "api_key" in credentials && "private_key" in credentials;
  }

  /** Both names read are among the settings the plugin registers, and the
      api key and private key are read from different settings */
  lemma CredentialSettingsRegistered(testmode: bool)
    ensures ApiKeySetting(testmode) in REGISTERED_SETTINGS
    ensures PrivateKeySetting(testmode) in REGISTERED_SETTINGS
    ensures ApiKeySetting(testmode) != PrivateKeySetting(testmode)
  {
  }
}
