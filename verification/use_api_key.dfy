/** The API-key composable: a module-level flag caching whether the service
    has a key, which every mutating operation re-synchronises with the
    service. The flag lives in one `ApiKeyStatus` object, the module
    instance, so every `useApiKey()` caller sees the same flag. */
module UseApiKey {
  import opened Base
  import opened JsStrings
  import opened AiService

  class ApiKeyStatus {
    const service: AIService
    var apiKeyAvailable: bool

    /** The cached flag agrees with the service. */
    ghost predicate Coherent()
      reads this, service.storage
    {
      apiKeyAvailable == service.IsApiKeyAvailable()
    }

    /** Module load: the flag starts as the service's availability. */
    constructor (service: AIService)
      ensures this.service == service
      ensures Coherent()
    {
      this.service := service;
      apiKeyAvailable := service.IsApiKeyAvailable();
    }

    /** The computed `isApiKeyAvailable`: the cached flag, which while the
        flag is coherent is the service's own availability. */
    function IsApiKeyAvailable(): (b: bool)
      reads this, service.storage
      ensures Coherent() ==> (b <==> service.IsApiKeyAvailable())
    {
      apiKeyAvailable
    }

    /** The computed `hasEnvironmentApiKey`, read from the service each time:
        the build-time key has a non-whitespace character. */
    function HasEnvironmentApiKey(): (b: bool)
      ensures b <==> service.envKey.Some? && !IsBlank(service.envKey.value)
    {
      service.HasEnvironmentApiKey()
    }

    /** `updateApiKeyStatus`: re-reads the service; the flag afterwards
        depends only on the service, so a second call changes nothing. */
    method UpdateApiKeyStatus()
      modifies this
      ensures Coherent()
      ensures apiKeyAvailable == service.IsApiKeyAvailable()
    {
      apiKeyAvailable := service.IsApiKeyAvailable();
    }

    /** `setApiKey`: when the service rejects the key it throws before the
        flag is touched; otherwise the flag follows the newly stored key. */
    method SetApiKey(key: KeyInput) returns (outcome: Outcome)
      modifies this, service, service.storage
      ensures !IsValidKeyInput(key) ==>
        outcome == Fail(Error(InvalidKeyInputMessage))
        && apiKeyAvailable == old(apiKeyAvailable)
        && service.storage.items == old(service.storage.items) && service.ai == old(service.ai)
      ensures IsValidKeyInput(key) ==>
        outcome == Pass && Coherent()
        && service.storage.items == old(service.storage.items)[ApiKeyStorageKey := Trim(key.s)]
        && service.ai == ClientFor(service.GetApiKey())
        && (apiKeyAvailable <==> service.ai.Some?)
    {
      outcome := service.SetApiKey(key);
      if outcome.Fail? {
        return;
      }
      UpdateApiKeyStatus();
    }

    /** `validateApiKey`: the service's verdict, unchanged; no state moves. */
    method ValidateApiKey(key: string, sdk: Sdk) returns (v: Validation)
      ensures v == AiService.ValidateApiKey(key, sdk)
    {
      v := AiService.ValidateApiKey(key, sdk);
    }

    /** `clearApiKey`: removes the stored key and re-initialises the
        service; afterwards a key is available exactly when the environment
        supplies one. */
    method ClearApiKey()
      modifies this, service, service.storage
      ensures service.storage.items == old(service.storage.items) - {ApiKeyStorageKey}
      ensures service.ai == ClientFor(service.GetApiKey())
      ensures Coherent()
      ensures apiKeyAvailable <==> service.HasEnvironmentApiKey()
    {
      service.storage.RemoveItem(ApiKeyStorageKey);
      service.InitializeAI();
      UpdateApiKeyStatus();
    }
  }
}
