/** The browser page that extracts job details from a pasted message with
    Gemini, shows them, and stores them in Supabase. The page keeps two
    globals, the loaded configuration and the extracted job object; the DOM
    is reduced to the message box, the results section and its rows. */
module JobPage {
  import opened Wrappers
  import opened Strings
  import opened EnvConfig

  const NotSpecified: string := "Not specified"
  const ApplyLink: string := "apply_link"
  const CreatedAt: string := "created_at"
  const GeminiEndpoint: string :=
    "https://generativelanguage.googleapis.com/v1beta/models/gemini-2.0-flash:generateContent?key="

  /** The job fields, as JSON key and display label, in the order the page
      shows and stores them. */
  const JobFields: seq<(string, string)> := [
    ("company_name", "Company Name"), ("designation", "Designation"), ("location", "Location"),
    ("batch", "Batch"), (ApplyLink, "Apply Link")]

  /** A parsed JSON object with string values. */
  type JobData = map<string, string>

  function Get(d: JobData, key: string): Option<string>
  {
    if key in d then Some(d[key]) else None
  }

  // ------------------------------------------------------- configuration

  /** The reply to `fetch('/api/config')`: its `ok` flag and parsed JSON, or a thrown error. */
  datatype ConfigReply = ConfigAnswered(ok: bool, json: map<string, string>) | ConfigThrew(message: string)

  /** What `checkConfiguration` reports: it returns true only for `AllLoaded`. */
  datatype ConfigStatus = LoadFailed | Missing(keys: seq<string>) | AllLoaded

  /** The keys of `keys` whose configuration value is falsy, in order. */
  function FalsyKeys(config: map<string, string>, keys: seq<string>): (r: seq<string>)
    ensures |r| <= |keys|
  {
    if keys == [] then []
    else (if Truthy(config, keys[0]) then [] else [keys[0]]) + FalsyKeys(config, keys[1..])
  }

  /** `FalsyKeys` over the three configuration keys, unfolded. */
  lemma FalsyConfigKeys(config: map<string, string>)
    ensures FalsyKeys(config, ConfigKeys)
         == (if Truthy(config, GeminiApiKey) then [] else [GeminiApiKey])
          + (if Truthy(config, SupabaseUrl) then [] else [SupabaseUrl])
          + (if Truthy(config, SupabaseServiceKey) then [] else [SupabaseServiceKey])
  {
    var ks := ConfigKeys;
    assert ks[1..][1..][1..] == [];
    assert FalsyKeys(config, ks[1..][1..]) == (if Truthy(config, SupabaseServiceKey) then [] else [SupabaseServiceKey]);
  }

  /** Position of a configuration key in the configuration object. */
  function KeyRank(k: string): nat
  {
    if k == GeminiApiKey then 0 else if k == SupabaseUrl then 1 else 2
  }

  /** The missing-configuration list names exactly the keys whose value is
      falsy, each once, in the fixed order of the configuration object. */
  lemma MissingConfigsSpec(config: map<string, string>)
    ensures var m := FalsyKeys(config, ConfigKeys);
      && (forall k :: k in m <==> k in ConfigKeys && !Truthy(config, k))
      && (forall i, j :: 0 <= i < j < |m| ==> KeyRank(m[i]) < KeyRank(m[j]))
      && (m == [] <==> forall k :: k in ConfigKeys ==> Truthy(config, k))
  {
    FalsyConfigKeys(config);
  }

  /** A configuration served from an environment is missing exactly the
      keys whose environment variable is unset or empty. */
  lemma ServedConfigMissing(env: Env)
    ensures forall k :: k in FalsyKeys(PayloadObject(ConfigPayload(env)), ConfigKeys)
                     <==> k in ConfigKeys && !Truthy(env, k)
  {
    var config := PayloadObject(ConfigPayload(env));
    PayloadObjectValues(env);
    MissingConfigsSpec(config);
    assert forall k :: k in ConfigKeys ==> (Truthy(config, k) <==> Truthy(env, k));
  }

  // ----------------------------------------------------------- fences

  /** `s.replace(/<pat>\n?/g, '')`: scanning left to right, every match of
      `pat`, with the newline right after it if there is one, is deleted. */
  function RemoveMatches(s: string, pat: string): (r: string)
    requires |pat| > 0
    ensures |r| <= |s|
    decreases |s|
  {
    if s == [] then []
    else if |pat| <= |s| && s[..|pat|] == pat then
      var rest := s[|pat|..];
      RemoveMatches(if rest != [] && rest[0] == '\n' then rest[1..] else rest, pat)
    else [s[0]] + RemoveMatches(s[1..], pat)
  }

  /** The cleanup applied to Gemini's text before `JSON.parse`. */
  function CleanFences(text: string): string
  {
    Trim(RemoveMatches(RemoveMatches(text, "```json"), "```"))
  }

  predicate NoBacktick(s: string)
  {
    forall k :: 0 <= k < |s| ==> s[k] != '`'
  }

  /** Text before the first backtick passes through the cleanup untouched. */
  lemma {:induction false} RemoveMatchesKeepsPlainPrefix(x: string, y: string, pat: string)
    requires |pat| > 0 && pat[0] == '`' && NoBacktick(x)
    ensures RemoveMatches(x + y, pat) == x + RemoveMatches(y, pat)
    decreases |x|
  {
    if x != [] {
      assert (x + y)[0] == x[0] && (x + y)[1..] == x[1..] + y;
      RemoveMatchesKeepsPlainPrefix(x[1..], y, pat);
    } else {
      assert x + y == y;
    }
  }

  /** A string shorter than the pattern cannot match it. */
  lemma {:induction false} RemoveMatchesShort(s: string, pat: string)
    requires 0 < |pat| && |s| < |pat|
    ensures RemoveMatches(s, pat) == s
    decreases |s|
  {
    if s != [] {
      RemoveMatchesShort(s[1..], pat);
    }
  }

  /** White space at the end does not change the trimmed text. */
  lemma {:induction false} TrimDropsTrailingNewline(s: string)
    ensures Trim(s + "\n") == Trim(s)
    decreases |s|
  {
    if s != [] && IsJsWhitespace(s[0]) {
      assert (s + "\n")[1..] == s[1..] + "\n";
      TrimDropsTrailingNewline(s[1..]);
    } else if s == [] {
      assert TrimStart("\n") == TrimStart("\n"[1..]);
    } else {
      assert TrimStart(s + "\n") == s + "\n";
      assert (s + "\n")[..|s + "\n"| - 1] == s;
    }
  }

  /** The first pass deletes the opening fence and its newline only. */
  lemma OpeningFenceRemoved(body: string, tail: string)
    requires NoBacktick(body) && (tail == "" || tail == "\n")
    ensures RemoveMatches("```json\n" + body + "\n```" + tail, "```json") == (body + "\n") + ("```" + tail)
  {
    var s := "```json\n" + body + "\n```" + tail;
    var rest := (body + "\n") + ("```" + tail);
    assert s[..7] == "```json";
    assert s[7..][0] == '\n' && s[7..][1..] == rest;
    RemoveMatchesKeepsPlainPrefix(body + "\n", "```" + tail, "```json");
    RemoveMatchesShort("```" + tail, "```json");
  }

  /** The second pass deletes the closing fence and its newline only. */
  lemma ClosingFenceRemoved(body: string, tail: string)
    requires NoBacktick(body) && (tail == "" || tail == "\n")
    ensures RemoveMatches((body + "\n") + ("```" + tail), "```") == body + "\n"
  {
    RemoveMatchesKeepsPlainPrefix(body + "\n", "```" + tail, "```");
    var f := "```" + tail;
    assert f[..3] == "```" && f[3..] == tail;
    assert RemoveMatches(f, "```") == [];
    assert (body + "\n") + [] == body + "\n";
  }

  /** A reply wrapped in a ```` ```json ```` fence is reduced to its trimmed
      body, with or without a newline after the closing fence. */
  lemma FencedJsonUnwrapped(body: string, tail: string)
    requires NoBacktick(body) && (tail == "" || tail == "\n")
    ensures CleanFences("```json\n" + body + "\n```" + tail) == Trim(body)
  {
    var fenced := "```json\n" + body + "\n```" + tail;
    OpeningFenceRemoved(body, tail);
    var once := RemoveMatches(fenced, "```json");
    ClosingFenceRemoved(body, tail);
    var twice := RemoveMatches(once, "```");
    assert twice == body + "\n";
    TrimDropsTrailingNewline(body);
    assert CleanFences(fenced) == Trim(twice);
  }

  /** Text without backticks is only trimmed. */
  lemma PlainTextOnlyTrimmed(s: string)
    requires NoBacktick(s)
    ensures CleanFences(s) == Trim(s)
  {
    RemoveMatchesKeepsPlainPrefix(s, "", "```json");
    RemoveMatchesKeepsPlainPrefix(s, "", "```");
    assert s + "" == s;
  }

  // ----------------------------------------------------------- display

  /** A displayed value: a link (`undefined` has no text) or plain text. */
  datatype Shown = Link(href: Option<string>) | Plain(text: string)

  datatype Row = Row(title: string, value: Shown)

  /** The value shown for one field. */
  function ShownValue(data: JobData, key: string): Shown
  {
    if key == ApplyLink && Get(data, key) != Some(NotSpecified) then Link(Get(data, key))
    else Plain(if Truthy(data, key) then data[key] else NotSpecified)
  }

  /** Every field but the apply link shows its value when truthy and
      "Not specified" otherwise, so never an empty text; the apply link is a
      link exactly when its value is not the literal "Not specified", so an
      absent or empty link still becomes an (empty) link. */
  lemma ShownValueSpec(data: JobData, key: string)
    ensures key != ApplyLink ==>
              ShownValue(data, key) == Plain(if Truthy(data, key) then data[key] else NotSpecified)
    ensures ShownValue(data, key).Plain? ==> ShownValue(data, key).text != ""
    ensures key == ApplyLink ==>
              (ShownValue(data, key).Link? <==> Get(data, key) != Some(NotSpecified))
              && (ShownValue(data, key).Link? ==> ShownValue(data, key).href == Get(data, key))
              && (ShownValue(data, key).Plain? ==> ShownValue(data, key) == Plain(NotSpecified))
  {
  }

  // ------------------------------------------------------------ storage

  /** `insertData`: the five job fields (`undefined` when absent) and the time stamp. */
  function InsertData(data: JobData, createdAt: string): (row: seq<(string, Option<string>)>)
  {
    seq(|JobFields|, i requires 0 <= i < |JobFields| => (JobFields[i].0, Get(data, JobFields[i].0)))
    + [(CreatedAt, Some(createdAt))]
  }

  /** The inserted row has exactly the five job keys and `created_at`, in
      order; each job value is copied from the extracted object, and keys the
      object has beyond those five are dropped. */
  lemma InsertDataProjection(data: JobData, other: JobData, createdAt: string)
    requires forall i :: 0 <= i < |JobFields| ==> Get(data, JobFields[i].0) == Get(other, JobFields[i].0)
    ensures var row := InsertData(data, createdAt);
      && |row| == 6
      && (forall i :: 0 <= i < 5 ==> row[i] == (JobFields[i].0, Get(data, JobFields[i].0)))
      && row[5] == (CreatedAt, Some(createdAt))
      && row == InsertData(other, createdAt)
  {
  }

  // --------------------------------------------------------- the page

  datatype GeminiRequest = GeminiRequest(url: string, message: string)

  /** Gemini's reply: `ok`, HTTP status and `candidates[0].content.parts[0].text`
      when the candidate structure is there; or a thrown error. */
  datatype GeminiReply = GeminiAnswered(ok: bool, status: int, text: Option<string>) | GeminiThrew(message: string)

  /** `JSON.parse` of the cleaned text: an object, `null`, or a syntax error. */
  datatype ParsedJson = ParsedObject(fields: JobData) | ParsedNull | NotJson(message: string)

  datatype ExtractError =
    | EmptyMessage | NoGeminiKey
    | GeminiHttpError(status: int) | InvalidResponse | GeminiRequestFailed(message: string)
    | BadJson(message: string) | NotAnObject

  datatype ExtractOutcome = Extracted(rows: seq<Row>) | ExtractFailed(error: ExtractError)

  datatype DbRequest = DbRequest(url: string, headers: seq<(string, string)>, row: seq<(string, Option<string>)>)

  datatype DbReply = DbAnswered(ok: bool, status: int, text: string) | DbThrew(message: string)

  datatype InsertOutcome =
    | SupabaseConfigMissing | NoData
    | DbHttpError(status: int, text: string) | DbRequestFailed(message: string)
    | Inserted

  /** The text of the first candidate, or why there is none: a thrown
      request, a non-ok status, or a reply without the candidate structure. */
  function ReplyText(reply: GeminiReply): (r: Result<string, ExtractError>)
    ensures r.Ok? <==> reply.GeminiAnswered? && reply.ok && reply.text.Some?
    ensures r.Ok? ==> r.value == reply.text.value
    ensures reply.GeminiThrew? ==> r == Err(GeminiRequestFailed(reply.message))
    ensures reply.GeminiAnswered? && !reply.ok ==> r == Err(GeminiHttpError(reply.status))
    ensures reply.GeminiAnswered? && reply.ok && reply.text.None? ==> r == Err(InvalidResponse)
  {
    match reply
    case GeminiThrew(m) => Err(GeminiRequestFailed(m))
    case GeminiAnswered(ok, status, text) =>
      if !ok then Err(GeminiHttpError(status))
      else if text.None? then Err(InvalidResponse)
      else Ok(text.value)
  }

  /** The rows `displayResults` shows for an object, in field order. */
  function DisplayRows(data: JobData): (rows: seq<Row>)
    ensures |rows| == |JobFields|
  {
    seq(|JobFields|, i requires 0 <= i < |JobFields| => Row(JobFields[i].1 + ":", ShownValue(data, JobFields[i].0)))
  }

  /** How a parsed reply ends the extraction. */
  function ParsedOutcome(parsed: ParsedJson): ExtractOutcome
  {
    match parsed
    case NotJson(m) => ExtractFailed(BadJson(m))
    case ParsedNull => ExtractFailed(NotAnObject)
    case ParsedObject(data) => Extracted(DisplayRows(data))
  }

  /** `extractedJobData` after `JSON.parse`: assigned unless parsing threw. */
  function StoredData(parsed: ParsedJson, before: Option<JobData>): Option<JobData>
  {
    match parsed
    case NotJson(_) => before
    case ParsedNull => None
    case ParsedObject(data) => Some(data)
  }

  /** The page state: the two globals and the part of the DOM they drive. */
  class Page {
    var config: map<string, string>
    /** `extractedJobData`; `None` is `null`. */
    var extractedJobData: Option<JobData>
    var messageInput: string
    var resultsVisible: bool
    var shownRows: seq<Row>

    constructor (message: string)
      ensures config == map[GeminiApiKey := "", SupabaseUrl := "", SupabaseServiceKey := ""]
      ensures extractedJobData == Some(map[]) && messageInput == message
      ensures !resultsVisible && shownRows == []
    {
      config := map[GeminiApiKey := "", SupabaseUrl := "", SupabaseServiceKey := ""];
      extractedJobData := Some(map[]);
      messageInput := message;
      resultsVisible := false;
      shownRows := [];
    }

    /** `loadConfiguration`: an ok reply replaces the configuration. */
    method LoadConfiguration(reply: ConfigReply) returns (loaded: bool)
      modifies this
      ensures loaded <==> reply.ConfigAnswered? && reply.ok
      ensures config == (if loaded then reply.json else old(config))
      ensures extractedJobData == old(extractedJobData) && messageInput == old(messageInput)
      ensures resultsVisible == old(resultsVisible) && shownRows == old(shownRows)
    {
      if reply.ConfigAnswered? && reply.ok {
        config := reply.json;
        loaded := true;
      } else {
        loaded := false;
      }
    }

    /** `checkConfiguration`: load, then list the falsy keys. */
    method CheckConfiguration(reply: ConfigReply) returns (status: ConfigStatus)
      modifies this
      ensures config == (if reply.ConfigAnswered? && reply.ok then reply.json else old(config))
      ensures status == (if !(reply.ConfigAnswered? && reply.ok) then LoadFailed
                         else if FalsyKeys(config, ConfigKeys) == [] then AllLoaded
                         else Missing(FalsyKeys(config, ConfigKeys)))
      ensures extractedJobData == old(extractedJobData) && messageInput == old(messageInput)
      ensures resultsVisible == old(resultsVisible) && shownRows == old(shownRows)
    {
      var loaded := LoadConfiguration(reply);
      if !loaded {
        return LoadFailed;
      }
      var missing: seq<string> := [];
      if !Truthy(config, GeminiApiKey) { missing := missing + [GeminiApiKey]; }
      if !Truthy(config, SupabaseUrl) { missing := missing + [SupabaseUrl]; }
      if !Truthy(config, SupabaseServiceKey) { missing := missing + [SupabaseServiceKey]; }
      FalsyConfigKeys(config);
      status := if |missing| > 0 then Missing(missing) else AllLoaded;
    }

    /** `displayResults`: one row per job field, then the section is shown. */
    method DisplayResults(data: JobData) returns (rows: seq<Row>)
      modifies this
      ensures rows == DisplayRows(data)
      ensures shownRows == rows && resultsVisible
      ensures config == old(config) && extractedJobData == old(extractedJobData) && messageInput == old(messageInput)
    {
      rows := [];
      for i := 0 to |JobFields|
        invariant |rows| == i
        invariant forall j :: 0 <= j < i ==> rows[j] == Row(JobFields[j].1 + ":", ShownValue(data, JobFields[j].0))
      {
        rows := rows + [Row(JobFields[i].1 + ":", ShownValue(data, JobFields[i].0))];
      }
      shownRows := rows;
      resultsVisible := true;
    }

    /** `displayResults` for a parsed value: an object is stored and shown;
        `null` is stored, the rows are emptied and reading its first field
        throws; a syntax error changes nothing. */
    method StoreParsed(parsed: ParsedJson) returns (outcome: ExtractOutcome)
      modifies this
      ensures outcome == ParsedOutcome(parsed)
      ensures extractedJobData == StoredData(parsed, old(extractedJobData))
      ensures resultsVisible == (outcome.Extracted? || old(resultsVisible))
      ensures shownRows == (if outcome.Extracted? then outcome.rows
                            else if parsed.ParsedNull? then [] else old(shownRows))
      ensures config == old(config) && messageInput == old(messageInput)
    {
      match parsed
      case NotJson(m) =>
        outcome := ExtractFailed(BadJson(m));
      case ParsedNull =>
        extractedJobData := None;
        shownRows := [];
        outcome := ExtractFailed(NotAnObject);
      case ParsedObject(data) =>
        extractedJobData := Some(data);
        var rows := DisplayResults(data);
        outcome := Extracted(rows);
    }

    /** `extractJobInfo`: the trimmed message and the Gemini key are checked
        before any request; the reply text is cleaned, parsed, stored and shown. */
    method ExtractJobInfo(reply: GeminiReply, parse: string -> ParsedJson)
      returns (outcome: ExtractOutcome, request: Option<GeminiRequest>)
      modifies this
      ensures request.None? <==> Trim(old(messageInput)) == "" || !Truthy(old(config), GeminiApiKey)
      ensures Trim(old(messageInput)) == "" ==> outcome == ExtractFailed(EmptyMessage)
      ensures Trim(old(messageInput)) != "" && !Truthy(old(config), GeminiApiKey) ==> outcome == ExtractFailed(NoGeminiKey)
      ensures request.Some? ==>
                Truthy(config, GeminiApiKey)
                && request.value == GeminiRequest(GeminiEndpoint + config[GeminiApiKey], Trim(messageInput))
      ensures request.Some? && ReplyText(reply).Err? ==> outcome == ExtractFailed(ReplyText(reply).error)
      ensures request.Some? && ReplyText(reply).Ok? ==> outcome == ParsedOutcome(parse(CleanFences(ReplyText(reply).value)))
      ensures extractedJobData == (if request.Some? && ReplyText(reply).Ok?
                                   then StoredData(parse(CleanFences(ReplyText(reply).value)), old(extractedJobData))
                                   else old(extractedJobData))
      ensures resultsVisible == (outcome.Extracted? || old(resultsVisible))
      ensures outcome.Extracted? ==> shownRows == outcome.rows
      ensures outcome.ExtractFailed? && outcome.error != NotAnObject ==> shownRows == old(shownRows)
      ensures outcome == ExtractFailed(NotAnObject) ==> shownRows == []
      ensures config == old(config) && messageInput == old(messageInput)
    {
      var message := Trim(messageInput);
      if message == "" {
        return ExtractFailed(EmptyMessage), None;
      }
      if !Truthy(config, GeminiApiKey) {
        return ExtractFailed(NoGeminiKey), None;
      }
      request := Some(GeminiRequest(GeminiEndpoint + config[GeminiApiKey], message));
      outcome := HandleReply(reply, parse);
    }

    /** The part of `extractJobInfo` after the request: check the reply,
        clean its text, parse, store and show. */
    method HandleReply(reply: GeminiReply, parse: string -> ParsedJson) returns (outcome: ExtractOutcome)
      modifies this
      ensures ReplyText(reply).Err? ==> outcome == ExtractFailed(ReplyText(reply).error)
      ensures ReplyText(reply).Ok? ==> outcome == ParsedOutcome(parse(CleanFences(ReplyText(reply).value)))
      ensures extractedJobData == (if ReplyText(reply).Ok?
                                   then StoredData(parse(CleanFences(ReplyText(reply).value)), old(extractedJobData))
                                   else old(extractedJobData))
      ensures resultsVisible == (outcome.Extracted? || old(resultsVisible))
      ensures outcome.Extracted? ==> shownRows == outcome.rows
      ensures outcome.ExtractFailed? && outcome.error != NotAnObject ==> shownRows == old(shownRows)
      ensures outcome == ExtractFailed(NotAnObject) ==> shownRows == []
      ensures config == old(config) && messageInput == old(messageInput)
    {
      match ReplyText(reply)
      case Err(e) =>
        outcome := ExtractFailed(e);
      case Ok(text) =>
        outcome := StoreParsed(parse(CleanFences(text)));
    }

    /** `insertToDatabase`: refused without the Supabase settings or without
        extracted data; otherwise the projected row is posted and, once
        accepted, the form is cleared. */
    method InsertToDatabase(reply: DbReply, now: string) returns (outcome: InsertOutcome, request: Option<DbRequest>)
      modifies this
      ensures !Truthy(old(config), SupabaseUrl) || !Truthy(old(config), SupabaseServiceKey) ==>
                outcome == SupabaseConfigMissing && request.None?
      ensures request.None? <==> outcome == SupabaseConfigMissing || outcome == NoData
      ensures outcome == NoData <==>
                Truthy(old(config), SupabaseUrl) && Truthy(old(config), SupabaseServiceKey)
                && (old(extractedJobData).None? || old(extractedJobData).value == map[])
      ensures request.Some? ==>
                && Truthy(config, SupabaseUrl) && Truthy(config, SupabaseServiceKey)
                && old(extractedJobData).Some?
                && request.value.url == config[SupabaseUrl] + "/rest/v1/jobs"
                && request.value.headers == [("Content-Type", "application/json"),
                                             ("Authorization", "Bearer " + config[SupabaseServiceKey]),
                                             ("apikey", config[SupabaseServiceKey]),
                                             ("Prefer", "return=minimal")]
                && request.value.row == InsertData(old(extractedJobData).value, now)
      ensures request.Some? ==>
                && (reply.DbThrew? ==> outcome == DbRequestFailed(reply.message))
                && (reply.DbAnswered? && !reply.ok ==> outcome == DbHttpError(reply.status, reply.text))
                && (outcome == Inserted <==> reply.DbAnswered? && reply.ok)
      ensures outcome == Inserted ==> extractedJobData == Some(map[]) && messageInput == "" && !resultsVisible
      ensures outcome != Inserted ==>
                extractedJobData == old(extractedJobData) && messageInput == old(messageInput)
                && resultsVisible == old(resultsVisible)
      ensures config == old(config) && shownRows == old(shownRows)
    {
      if !Truthy(config, SupabaseUrl) || !Truthy(config, SupabaseServiceKey) {
        return SupabaseConfigMissing, None;
      }
      if extractedJobData.None? || |extractedJobData.value.Keys| == 0 {
        return NoData, None;
      }
      var key := config[SupabaseServiceKey];
      request := Some(DbRequest(config[SupabaseUrl] + "/rest/v1/jobs",
                                [("Content-Type", "application/json"), ("Authorization", "Bearer " + key),
                                 ("apikey", key), ("Prefer", "return=minimal")],
                                InsertData(extractedJobData.value, now)));
      match reply
      case DbThrew(m) =>
        outcome := DbRequestFailed(m);
      case DbAnswered(ok, status, text) =>
        if !ok {
          outcome := DbHttpError(status, text);
        } else {
          outcome := Inserted;
          messageInput := "";
          resultsVisible := false;
          extractedJobData := Some(map[]);
        }
    }
  }
}
