/** The process environment and the configuration object that both the
    Express server and the Netlify function hand to the browser page. */
module EnvConfig {
  /** Environment variables; an unset variable is absent from the map. */
  type Env = map<string, string>

  const GeminiApiKey: string := "GEMINI_API_KEY"
  const SupabaseUrl: string := "SUPABASE_URL"
  const SupabaseServiceKey: string := "SUPABASE_SERVICE_KEY"

  /** The configuration keys, in the order the configuration object lists them. */
  const ConfigKeys: seq<string> := [GeminiApiKey, SupabaseUrl, SupabaseServiceKey]

  /** JavaScript truthiness of `obj[key]` for string values: present and not empty. */
  predicate Truthy(m: map<string, string>, key: string)
  {
    key in m && m[key] != ""
  }

  /** `process.env[key] || ''`. */
  function OrEmpty(env: Env, key: string): (v: string)
    ensures v != "" <==> Truthy(env, key)
    ensures Truthy(env, key) ==> v == env[key]
  {
    if key in env then env[key] else ""
  }

  /** The object `{GEMINI_API_KEY, SUPABASE_URL, SUPABASE_SERVICE_KEY}` with
      every value defaulting to the empty string, as key/value pairs in order. */
  function ConfigPayload(env: Env): (p: seq<(string, string)>)
  {
    seq(|ConfigKeys|, i requires 0 <= i < |ConfigKeys| => (ConfigKeys[i], OrEmpty(env, ConfigKeys[i])))
  }

  /** The payload names exactly the three configuration keys, each once and
      in order, and carries a variable's value exactly when it is set and
      non-empty; other variables never leak into it. */
  lemma ConfigPayloadShape(env: Env, other: Env)
    requires forall k :: k in ConfigKeys ==> (k in env <==> k in other) && (k in env ==> env[k] == other[k])
    ensures |ConfigPayload(env)| == 3
    ensures forall i :: 0 <= i < 3 ==> ConfigPayload(env)[i].0 == ConfigKeys[i]
    ensures forall i, j :: 0 <= i < j < 3 ==> ConfigPayload(env)[i].0 != ConfigPayload(env)[j].0
    ensures forall i :: 0 <= i < 3 ==>
              (ConfigPayload(env)[i].1 != "" <==> Truthy(env, ConfigKeys[i]))
              && (Truthy(env, ConfigKeys[i]) ==> ConfigPayload(env)[i].1 == env[ConfigKeys[i]])
    ensures ConfigPayload(env) == ConfigPayload(other)
  {
    assert forall i :: 0 <= i < 3 ==> ConfigKeys[i] in ConfigKeys;
  }

  /** The configuration object as a JavaScript object: key to value. */
  function PayloadObject(p: seq<(string, string)>): map<string, string>
  {
    if p == [] then map[] else PayloadObject(p[..|p| - 1])[p[|p| - 1].0 := p[|p| - 1].1]
  }

  /** Read back through the object, the payload gives each key its
      variable's value or the empty string. */
  lemma PayloadObjectValues(env: Env)
    ensures var m := PayloadObject(ConfigPayload(env));
      m.Keys == {GeminiApiKey, SupabaseUrl, SupabaseServiceKey}
      && forall k :: k in m ==> m[k] == OrEmpty(env, k)
  {
    var p := ConfigPayload(env);
    var g, u, k := OrEmpty(env, GeminiApiKey), OrEmpty(env, SupabaseUrl), OrEmpty(env, SupabaseServiceKey);
    assert p == [(GeminiApiKey, g), (SupabaseUrl, u), (SupabaseServiceKey, k)];
    assert p[..2][..1] == p[..1] && p[..1][..0] == [] && p[..3] == p;
    assert PayloadObject(p[..1]) == map[GeminiApiKey := g];
    assert PayloadObject(p[..2]) == map[GeminiApiKey := g, SupabaseUrl := u];
    assert PayloadObject(p) == map[GeminiApiKey := g, SupabaseUrl := u, SupabaseServiceKey := k];
  }
}
