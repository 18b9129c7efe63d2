/** The older top-level copy of the tool CLI. Its registry, key masking, prompts and
    payload parsing are the same code as the current copy and reuse that model; what
    differs is the model-list path, which here carries the API version. */
module LegacyCli {
  import opened Text
  import opened ToolCli

  const LegacyModelsPath := "/v1/models"

  /** The older `fetch_models`: the same three payload shapes, read from `<base>/v1/models`. */
  method FetchModels(baseUrl: string, response: ModelsResponse) returns (url: string, models: seq<string>)
    ensures url == RStripChar(baseUrl, '/') + LegacyModelsPath
    ensures response.Unreachable? ==> models == []
    ensures response.Body? && response.parsed.Malformed? ==> models == []
    ensures response.Body? && response.parsed.Decoded? ==> models == PayloadModels(response.parsed.value)
  {
    url, models := ToolCli.FetchModels(baseUrl, LegacyModelsPath, response);
  }

  /** The older URL is the current one for a base URL that ends in "/v1", whatever
      trailing slashes the base carried. */
  lemma LegacyUrlIsVersionedBase(baseUrl: string)
    ensures ModelsUrl(baseUrl, LegacyModelsPath) == ModelsUrl(RStripChar(baseUrl, '/') + "/v1", ModelsPath)
  {
    var v := RStripChar(baseUrl, '/') + "/v1";
    assert v[|v| - 1] == '1';
    assert RStripChar(v, '/') == v;
  }
}
