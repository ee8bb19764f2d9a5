/** The Netlify function that serves the browser configuration: it answers
    the CORS preflight, returns the configuration on GET and refuses every
    other method. */
module NetlifyConfig {
  import opened EnvConfig

  /** The CORS headers every response carries. */
  const CorsHeaders: map<string, string> := map[
    "Access-Control-Allow-Origin" := "*",
    "Access-Control-Allow-Headers" := "Content-Type",
    "Access-Control-Allow-Methods" := "GET, POST, PUT, DELETE, OPTIONS"]

  /** A response body: literal text, or the `JSON.stringify` of a flat object
      given by its key/value pairs in order. */
  datatype Body = Text(text: string) | JsonObject(fields: seq<(string, string)>)

  datatype FunctionResponse = FunctionResponse(statusCode: nat, headers: map<string, string>, body: Body)

  /** `exports.handler`, dispatching on `event.httpMethod` with `===`. */
  function Handler(httpMethod: string, env: Env): (r: FunctionResponse)
    ensures r.statusCode == 200 <==> httpMethod == "OPTIONS" || httpMethod == "GET"
    ensures r.statusCode != 200 ==> r.statusCode == 405 && r.body == JsonObject([("error", "Method not allowed")])
    ensures httpMethod == "OPTIONS" ==> r.body == Text("")
    ensures httpMethod == "GET" ==> r.body == JsonObject(ConfigPayload(env))
  {
    if httpMethod == "OPTIONS" then
      FunctionResponse(200, CorsHeaders, Text(""))
    else if httpMethod == "GET" then
      FunctionResponse(200, CorsHeaders["Content-Type" := "application/json"], JsonObject(ConfigPayload(env)))
    else
      FunctionResponse(405, CorsHeaders, JsonObject([("error", "Method not allowed")]))
  }

  /** Every response carries the three CORS headers unchanged; only the GET
      response adds a header, the JSON content type, and nothing else. */
  lemma HandlerHeaders(httpMethod: string, env: Env)
    ensures var r := Handler(httpMethod, env);
      && (forall k :: k in CorsHeaders ==> k in r.headers && r.headers[k] == CorsHeaders[k])
      && r.headers.Keys == CorsHeaders.Keys + (if httpMethod == "GET" then {"Content-Type"} else {})
      && ("Content-Type" in r.headers <==> httpMethod == "GET")
      && (httpMethod == "GET" ==> r.headers["Content-Type"] == "application/json")
  {
    assert "Content-Type" !in CorsHeaders by {
      assert "Content-Type"[0] != "Access-Control-Allow-Origin"[0];
      assert "Content-Type"[0] != "Access-Control-Allow-Headers"[0];
      assert "Content-Type"[0] != "Access-Control-Allow-Methods"[0];
    }
  }

  /** The GET body is the configuration object of the Express server's
      `/api/config`: the three keys, each the variable's value or `''`. */
  lemma GetMatchesServerConfig(env: Env)
    ensures var r := Handler("GET", env);
      r.body.JsonObject?
      && |r.body.fields| == 3
      && (forall i :: 0 <= i < 3 ==>
            r.body.fields[i].0 == ConfigKeys[i] && r.body.fields[i].1 == OrEmpty(env, ConfigKeys[i]))
  {
  }

  /** Method names are compared exactly: a lower-case `get` is refused. */
  lemma MethodIsCaseSensitive(env: Env)
    ensures Handler("get", env).statusCode == 405
    ensures Handler("options", env).statusCode == 405
  {
    assert "get" != "GET" && "get" != "OPTIONS" by { assert "get"[0] != "GET"[0]; }
    assert "options" != "GET" && "options" != "OPTIONS" by { assert "options"[0] != "OPTIONS"[0]; }
  }
}
