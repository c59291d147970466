/** The AI backend manager: the configured provider, model, key and URL,
    the two cloud consents, and the client built from the configuration.
    The clients themselves talk to the network and are not modelled: a
    client is the record of what it was built with, and what a client
    answers is passed in. */
module Backend {
  import opened Py

  datatype Client =
    | Ollama(baseUrl: string, model: string)
    | LMStudio(baseUrl: string, model: string)
    | GPT4All(model: string)
    | Cloud(provider: string, model: string, apiKey: Option<string>)

  /** The `(ok, message)` pair a connection test returns. */
  datatype Reply = Reply(ok: bool, message: string)

  /** Python truthiness of an optional string argument. */
  predicate Given(s: Option<string>)
  {
    s.Some? && s.value != []
  }

  /** `_make_client`: a local provider of the three known kinds gets its
      client, any other local provider none, and every other provider type
      a cloud client. */
  function MakeClient(providerType: string, provider: string, model: string,
                      apiKey: Option<string>, baseUrl: string): (c: Option<Client>)
    ensures c == None <==> providerType == "local" && provider !in {"ollama", "lmstudio", "gpt4all"}
    ensures c.Some? ==> c.value.model == model
    ensures providerType != "local" ==> c == Some(Cloud(provider, model, apiKey))
  {
    if providerType == "local" then
      if provider == "ollama" then Some(Ollama(baseUrl, model))
      else if provider == "lmstudio" then Some(LMStudio(baseUrl, model))
      else if provider == "gpt4all" then Some(GPT4All(model))
      else None
    else Some(Cloud(provider, model, apiKey))
  }

  const NoClientMessage := "No client configured"
  const NoBackendChunk := "No AI backend configured."

  class BackendManager {
    var providerType: string
    var provider: string
    var model: string
    var apiKey: Option<string>
    var baseUrl: string
    var consentInstitutional: bool
    var consentData: bool
    var client: Option<Client>

    /** The client the current configuration builds. */
    function Configured(): Option<Client>
      reads this
    {
      MakeClient(providerType, provider, model, apiKey, baseUrl)
    }

    /** A fresh manager: local Ollama with the `gemma3:4b` model on the
        default port, no key, no consent and no client yet. */
    constructor()
      ensures providerType == "local" && provider == "ollama" && model == "gemma3:4b"
      ensures apiKey == None && baseUrl == "http://localhost:11434"
      ensures !consentInstitutional && !consentData && client == None
      ensures !CloudConsentGranted()
      ensures Configured() == Some(Ollama("http://localhost:11434", "gemma3:4b"))
    {
      providerType := "local";
      provider := "ollama";
      model := "gemma3:4b";
      apiKey := None;
      baseUrl := "http://localhost:11434";
      consentInstitutional := false;
      consentData := false;
      client := None;
    }

    /** `configure`: the provider type and provider are always replaced;
        model, key and URL only by a non-empty argument; then the client is
        rebuilt. */
    method Configure(newType: string, newProvider: string, newModel: Option<string>,
                     newKey: Option<string>, newUrl: Option<string>)
      modifies this
      ensures providerType == newType && provider == newProvider
      ensures model == if Given(newModel) then newModel.value else old(model)
      ensures apiKey == if Given(newKey) then newKey else old(apiKey)
      ensures baseUrl == if Given(newUrl) then newUrl.value else old(baseUrl)
      ensures consentInstitutional == old(consentInstitutional) && consentData == old(consentData)
      ensures CloudConsentGranted() == old(CloudConsentGranted())
      ensures client == Configured()
    {
      providerType := newType;
      provider := newProvider;
      if Given(newModel) {
        model := newModel.value;
      }
      if Given(newKey) {
        apiKey := newKey;
      }
      if Given(newUrl) {
        baseUrl := newUrl.value;
      }
      client := MakeClient(providerType, provider, model, apiKey, baseUrl);
    }

    /** `cloud_consent_granted`: cloud use needs both the institution's
        approval and the data consent; either one alone grants nothing. */
    predicate CloudConsentGranted(): (granted: bool)
      reads this
      ensures granted <==> consentInstitutional && consentData
    {
      consentInstitutional && consentData
    }

    /** `test_connection`: a missing client is built from the configuration
        first; with none buildable the answer is `(False, "No client
        configured")`, otherwise it is what the client answers. */
    method TestConnection(clientAnswer: Reply) returns (r: Reply)
      modifies this
      ensures client == if old(client).Some? then old(client) else Configured()
      ensures r == if client == None then Reply(false, NoClientMessage) else clientAnswer
      ensures providerType == old(providerType) && provider == old(provider) && model == old(model)
      ensures apiKey == old(apiKey) && baseUrl == old(baseUrl)
      ensures consentInstitutional == old(consentInstitutional) && consentData == old(consentData)
    {
      if client == None {
        client := MakeClient(providerType, provider, model, apiKey, baseUrl);
      }
      if client == None {
        return Reply(false, NoClientMessage);
      }
      r := clientAnswer;
    }

    /** `generate_response`: without a client exactly one chunk, the
        no-backend message; with one, the client's chunks. The client is not
        built here. */
    function GenerateResponse(clientChunks: seq<string>): (chunks: seq<string>)
      reads this
      ensures client == None ==> chunks == [NoBackendChunk]
      ensures client.Some? ==> chunks == clientChunks
    {
      if client == None then [NoBackendChunk] else clientChunks
    }
  }

  /** Which providers get no client: exactly the unknown local ones, never
      a cloud provider, whatever its name. */
  lemma NoClientOnlyForUnknownLocal(providerType: string, provider: string, model: string,
                                    apiKey: Option<string>, baseUrl: string)
    ensures MakeClient(providerType, provider, model, apiKey, baseUrl).None? ==>
      providerType == "local" && provider != "ollama" && provider != "lmstudio" && provider != "gpt4all"
    ensures providerType == "local" && provider == "openai" ==>
      MakeClient(providerType, provider, model, apiKey, baseUrl) == None
    ensures providerType == "cloud" ==> MakeClient(providerType, provider, model, apiKey, baseUrl).Some?
  {
  }
}
