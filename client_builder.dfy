/**
 * `McpToolboxClientBuilder`: collects the base URL and the API key, and builds the client.
 */

import opened Wrappers

class ClientBuilder {
  var baseUrl: Option<string>
  var apiKey: Option<string>

  constructor ()
    ensures baseUrl.None? && apiKey.None?
  {
    baseUrl := None;
    apiKey := None;
  }

  /** Records the base URL; returns the builder for chaining. */
  method BaseUrl(url: Option<string>) returns (self: ClientBuilder)
    modifies this
    ensures self == this
    ensures baseUrl == url && apiKey == old(apiKey)
  {
    baseUrl := url;
    self := this;
  }

  /** Records the API key; returns the builder for chaining. */
  method ApiKey(key: Option<string>) returns (self: ClientBuilder)
    modifies this
    ensures self == this
    ensures apiKey == key && baseUrl == old(baseUrl)
  {
    apiKey := key;
    self := this;
  }

  /** `build`: fails without a non-empty base URL; otherwise strips one trailing slash from
      the builder's own URL (the builder keeps the stripped value) and hands it to the client,
      whose constructor strips one more. */
  method Build(mapper: Mapper) returns (r: Result<ToolboxClient, Failure>)
    modifies this
    ensures r.Err? <==> old(baseUrl).None? || old(baseUrl).value == ""
    ensures r.Err? ==> r.error == BaseUrlMissing && baseUrl == old(baseUrl)
    ensures apiKey == old(apiKey)
    ensures r.Ok? ==> baseUrl == Some(StripTrailingSlash(old(baseUrl).value))
    ensures r.Ok? ==> fresh(r.value) && !r.value.initialized && r.value.mapper == mapper
                      && r.value.apiKey == apiKey
                      && r.value.baseUrl == StripTrailingSlash(StripTrailingSlash(old(baseUrl).value))
  {
    if baseUrl.None? || baseUrl.value == "" {
      return Err(BaseUrlMissing);
    }
    if EndsWithSlash(baseUrl.value) {
      baseUrl := Some(baseUrl.value[..|baseUrl.value| - 1]);
    }
    var client := new ToolboxClient(baseUrl.value, apiKey, mapper);
    r := Ok(client);
  }
}

/** The client built from a URL keeps it minus at most two trailing slashes, and strips
    exactly two when there are two. */
lemma BuiltUrlDropsUpToTwoSlashes(url: string)
  ensures var built := StripTrailingSlash(StripTrailingSlash(url));
          && (url == built || url == built + "/" || url == built + "//")
          && (EndsWithSlash(url) && EndsWithSlash(url[..|url| - 1]) ==> url == built + "//")
{
  var once := StripTrailingSlash(url);
  var built := StripTrailingSlash(once);
  if EndsWithSlash(url) {
    assert url == once + "/";
    if EndsWithSlash(once) {
      assert once == built + "/";
      assert url == built + "//";
    }
  }
}

/** Two trailing slashes both disappear, and a base URL of a single slash builds a client
    with the empty base URL. */
lemma BuiltUrlExamples()
  ensures StripTrailingSlash(StripTrailingSlash("http://h//")) == "http://h"
  ensures StripTrailingSlash(StripTrailingSlash("/")) == ""
  ensures StripTrailingSlash(StripTrailingSlash("http://h/x")) == "http://h/x"
{
  assert "http://h//"[..9] == "http://h/";
  assert "http://h/"[..8] == "http://h";
}
