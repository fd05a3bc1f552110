/** Azure OpenAI endpoint selection (api/internal/config/config.go): the
    model-to-deployment table and the chat-completions URL built from it. */
module Config {

  const AzureBaseUrl: string := ""
  const AzureApiKey: string := ""
  const ApiVersion: string := ""

  /** The deployments that exist, each named after its model. */
  const ModelDeployments: map<string, string> := map["gpt-4.1" := "gpt-4.1", "o3" := "o3"]

  const FallbackDeployment: string := "gpt-4.1"

  /** The deployment serving `model`: its own when the table has one,
      otherwise the fallback. */
  function Deployment(model: string): (d: string)
    ensures d == "gpt-4.1" || d == "o3"
    ensures model in ModelDeployments ==> d == model
    ensures model !in ModelDeployments ==> d == FallbackDeployment
  {
    if model in ModelDeployments then ModelDeployments[model] else FallbackDeployment
  }

  /** `GetEndpointURL`: base, deployment, the chat-completions path and the
      API version. */
  function GetEndpointURL(model: string): (url: string)
  {
    EndpointFor(AzureBaseUrl, Deployment(model), ApiVersion)
  }

  function EndpointFor(base: string, deployment: string, version: string): (url: string)
    ensures |url| == |base| + |deployment| + |"/chat/completions?api-version="| + |version| + 1
    ensures url[..|base|] == base
    ensures url[|base|..|base| + 1 + |deployment|] == "/" + deployment
    ensures url == base + "/" + deployment + "/chat/completions?api-version=" + version
  {
    base + "/" + deployment + "/chat/completions?api-version=" + version
  }

  /** The URL always names one of the two known deployments, right after
      the base and a slash, and the deployment can be read back from it. */
  lemma EndpointNamesKnownDeployment(model: string)
    ensures var url := GetEndpointURL(model);
      || url == EndpointFor(AzureBaseUrl, "gpt-4.1", ApiVersion)
      || url == EndpointFor(AzureBaseUrl, "o3", ApiVersion)
    ensures GetEndpointURL(model)[|AzureBaseUrl| + 1..|AzureBaseUrl| + 1 + |Deployment(model)|] == Deployment(model)
  {
    var d := Deployment(model);
    var url := GetEndpointURL(model);
    assert d == "gpt-4.1" || d == "o3";
    assert url[|AzureBaseUrl|..|AzureBaseUrl| + 1 + |d|] == "/" + d;
    assert url[|AzureBaseUrl| + 1..|AzureBaseUrl| + 1 + |d|] == url[|AzureBaseUrl|..|AzureBaseUrl| + 1 + |d|][1..];
  }

  /** Known models get their own deployment and every other model shares
      the fallback's URL; the two known URLs differ. */
  lemma EndpointSelection(model: string)
    ensures model == "gpt-4.1" || model == "o3" ==> GetEndpointURL(model) == EndpointFor(AzureBaseUrl, model, ApiVersion)
    ensures model !in ModelDeployments ==> GetEndpointURL(model) == GetEndpointURL("gpt-4.1")
    ensures GetEndpointURL("gpt-4.1") != GetEndpointURL("o3")
  {
    var u1, u2 := GetEndpointURL("gpt-4.1"), GetEndpointURL("o3");
    assert |u1| != |u2|;
  }
}
