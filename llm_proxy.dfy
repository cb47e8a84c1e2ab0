/**
 * The decision logic of the development relay (app/server/llm-proxy.js): the
 * `.env` loader, the origin allow-list, the CORS headers, the body-size limit
 * and the order in which a request is answered or forwarded upstream.
 *
 * The HTTP server, the file system, `fetch`, URL and number parsing are not
 * part of this model: a file is its content or `None` when it does not exist,
 * the request arrives as its method, path, origin and body chunks, the
 * upstream base is already split into origin and path, and `send` stands for
 * the upstream call (`None` when it throws).
 */
module LlmProxy {
  import opened Wrappers
  import opened Text

  // ---- the .env loader ----

  /** A `key=value` definition read from one line. */
  datatype EnvEntry = EnvEntry(key: string, value: string)

  /** `value.slice(1, -1)` when the value is wrapped in matching double or single quotes. */
  function StripQuotes(value: string): string {
    if (StartsWith(value, "\"") && EndsWith(value, "\"")) || (StartsWith(value, "'") && EndsWith(value, "'"))
    then (if |value| >= 2 then value[1..|value| - 1] else [])
    else value
  }

  /**
   * One line of the loop body: blank lines, `#` comments and lines without
   * `=` define nothing; otherwise the trimmed text before the first `=` is the
   * key and the trimmed, unquoted text after it is the value.
   */
  function ParseEnvLine(line: string): Option<EnvEntry> {
    var trimmed := Trim(line);
    if trimmed == [] || StartsWith(trimmed, "#") then None
    else
      var idx := IndexOf(trimmed, '=');
      if idx == -1 then None
      else Some(EnvEntry(Trim(trimmed[..idx]), StripQuotes(Trim(trimmed[idx + 1..]))))
  }

  /** Entry `entry` defines `key`. */
  predicate Defines(entry: Option<EnvEntry>, key: string) {
    entry.Some? && entry.value.key == key
  }

  /** One iteration: a definition is taken only when the variable is not set yet. */
  function ApplyEntry(vars: map<string, string>, entry: Option<EnvEntry>): map<string, string> {
    match entry
    case None => vars
    case Some(e) => if e.key in vars then vars else vars[e.key := e.value]
  }

  /** The variables after the first `n` lines. */
  function EnvAfter(vars: map<string, string>, lines: seq<string>, n: nat): map<string, string>
    requires n <= |lines|
  {
    if n == 0 then vars else ApplyEntry(EnvAfter(vars, lines, n - 1), ParseEnvLine(lines[n - 1]))
  }

  /** One more line is one more application. */
  lemma EnvAfterNext(vars: map<string, string>, lines: seq<string>, n: nat)
    requires n < |lines|
    ensures EnvAfter(vars, lines, n + 1) == ApplyEntry(EnvAfter(vars, lines, n), ParseEnvLine(lines[n]))
  {
  }

  /** The variables after loading one optional file. */
  function EnvFile(vars: map<string, string>, file: Option<string>): map<string, string> {
    if file.None? then vars
    else
      var lines := SplitLines(file.value);
      EnvAfter(vars, lines, |lines|)
  }

  /** `process.env`. */
  class ProcessEnv {
    var vars: map<string, string>

    constructor(vars: map<string, string>)
      ensures this.vars == vars
    {
      this.vars := vars;
    }

    /** `loadEnvFile(filename)`: `file` is the file's content, or `None` when it does not exist. */
    method LoadEnvFile(file: Option<string>)
      modifies this
      ensures vars == EnvFile(old(vars), file)
    {
      if file.None? {
        return;
      }
      var lines := SplitLines(file.value);
      var i := 0;
      while i < |lines|
        invariant 0 <= i <= |lines|
        invariant vars == EnvAfter(old(vars), lines, i)
      {
        EnvAfterNext(old(vars), lines, i);
        Define(ParseEnvLine(lines[i]));
        i := i + 1;
      }
    }

    /** The body of the loop: `process.env[key] = value` only when `key` is not set yet. */
    method Define(entry: Option<EnvEntry>)
      modifies this
      ensures vars == ApplyEntry(old(vars), entry)
    {
      if entry.Some? && entry.value.key !in vars {
        vars := vars[entry.value.key := entry.value.value];
      }
    }

    /** The two calls at start-up: `.env.local` first, then `.env`. */
    method LoadStartupFiles(local: Option<string>, dotenv: Option<string>)
      modifies this
      ensures vars == EnvFile(EnvFile(old(vars), local), dotenv)
    {
      LoadEnvFile(local);
      LoadEnvFile(dotenv);
    }
  }

  /** A variable that is set is never overwritten, so loading only adds variables. */
  lemma {:induction false} EnvKeepsExisting(vars: map<string, string>, lines: seq<string>, n: nat, key: string)
    requires n <= |lines| && key in vars
    ensures key in EnvAfter(vars, lines, n) && EnvAfter(vars, lines, n)[key] == vars[key]
  {
    if n > 0 {
      EnvKeepsExisting(vars, lines, n - 1, key);
    }
  }

  /** A variable that is not set and that no line defines stays unset. */
  lemma {:induction false} EnvUndefinedStaysUnset(vars: map<string, string>, lines: seq<string>, n: nat, key: string)
    requires n <= |lines| && key !in vars
    requires forall j :: 0 <= j < n ==> !Defines(ParseEnvLine(lines[j]), key)
    ensures key !in EnvAfter(vars, lines, n)
  {
    if n > 0 {
      EnvUndefinedStaysUnset(vars, lines, n - 1, key);
    }
  }

  /** Once set, a variable keeps its value through all later lines. */
  lemma {:induction false} EnvKeepsFrom(vars: map<string, string>, lines: seq<string>, m: nat, n: nat, key: string)
    requires m <= n <= |lines| && key in EnvAfter(vars, lines, m)
    ensures key in EnvAfter(vars, lines, n)
    ensures EnvAfter(vars, lines, n)[key] == EnvAfter(vars, lines, m)[key]
  {
    if n > m {
      EnvKeepsFrom(vars, lines, m, n - 1, key);
    }
  }

  /** The first definition of an unset variable wins over every later one. */
  lemma FirstDefinitionWins(vars: map<string, string>, lines: seq<string>, i: nat, key: string)
    requires i < |lines| && key !in vars
    requires Defines(ParseEnvLine(lines[i]), key)
    requires forall j :: 0 <= j < i ==> !Defines(ParseEnvLine(lines[j]), key)
    ensures key in EnvAfter(vars, lines, |lines|)
    ensures EnvAfter(vars, lines, |lines|)[key] == ParseEnvLine(lines[i]).value.value
  {
    var entry := ParseEnvLine(lines[i]);
    EnvUndefinedStaysUnset(vars, lines, i, key);
    EnvAfterNext(vars, lines, i);
    assert EnvAfter(vars, lines, i + 1) == EnvAfter(vars, lines, i)[key := entry.value.value];
    EnvKeepsFrom(vars, lines, i + 1, |lines|, key);
  }

  /** A variable `.env.local` sets is never changed by `.env`. */
  lemma LocalFileWins(vars: map<string, string>, local: Option<string>, dotenv: Option<string>, key: string)
    requires key in EnvFile(vars, local)
    ensures key in EnvFile(EnvFile(vars, local), dotenv)
    ensures EnvFile(EnvFile(vars, local), dotenv)[key] == EnvFile(vars, local)[key]
  {
    if dotenv.Some? {
      var lines := SplitLines(dotenv.value);
      EnvKeepsExisting(EnvFile(vars, local), lines, |lines|, key);
    }
  }

  /** A value may itself contain `=`: only the first `=` of the line splits it. */
  lemma EnvValueMayContainEquals(key: string, value: string)
    requires TrimmedNonEmpty(key) && '=' !in key && key[0] != '#'
    requires TrimmedNonEmpty(value) && value[0] != '"' && value[0] != '\''
    ensures ParseEnvLine(key + "=" + value) == Some(EnvEntry(key, value))
  {
    var line := key + "=" + value;
    assert line[0] == key[0];
    assert line[|line| - 1] == value[|value| - 1];
    TrimOfTrimmed(line);
    assert line[..1] == [key[0]];
    assert !StartsWith(line, "#");
    IndexOfAfterPiece(key, '=', value);
    assert line[..|key|] == key;
    assert line[|key| + 1..] == value;
    TrimOfTrimmed(key);
    TrimOfTrimmed(value);
    UnquotedKept(value);
    assert ParseEnvLine(line) == Some(EnvEntry(Trim(line[..|key|]), StripQuotes(Trim(line[|key| + 1..]))));
  }

  /** A value that does not open with a quote is kept as it is. */
  lemma UnquotedKept(value: string)
    requires value != [] && value[0] != '"' && value[0] != '\''
    ensures StripQuotes(value) == value
  {
    assert value[..1] == [value[0]];
  }

  /** One pair of matching quotes is removed, and only one. */
  lemma QuotesStripped(inner: string)
    ensures StripQuotes("\"" + inner + "\"") == inner
    ensures StripQuotes("'" + inner + "'") == inner
  {
    var d := "\"" + inner + "\"";
    var q := "'" + inner + "'";
    assert d[..1] == "\"" && d[|d| - 1..] == "\"";
    assert q[..1] == "'" && q[|q| - 1..] == "'";
    assert d[1..|d| - 1] == inner;
    assert q[1..|q| - 1] == inner;
  }

  // ---- the origin allow-list ----

  const DefaultOrigins := "http://localhost:3000"

  /** `ALLOWED_ORIGINS`: the variable, or the default when it is unset or empty, read as a list. */
  function ParseOrigins(setting: Option<string>): (origins: seq<string>)
    ensures forall k :: 0 <= k < |origins| ==> TrimmedNonEmpty(origins[k])
  {
    OriginList(if setting.None? || setting.value == [] then DefaultOrigins else setting.value)
  }

  /** A comma-separated list: split on ',', each entry trimmed, empty entries dropped. */
  function OriginList(raw: string): (origins: seq<string>)
    ensures forall k :: 0 <= k < |origins| ==> TrimmedNonEmpty(origins[k])
  {
    NonEmptyTrimmed(Split(raw, ','))
  }

  /** A list written out with commas is read back as it was. */
  lemma OriginListRoundTrip(origins: seq<string>)
    requires |origins| >= 1
    requires forall k :: 0 <= k < |origins| ==> TrimmedNonEmpty(origins[k]) && ',' !in origins[k]
    ensures OriginList(Join(origins, ',')) == origins
  {
    TrimmedPiecesRoundTrip(origins, ',');
  }

  /** Unset or empty, the setting allows the local development server only; otherwise the setting is the list. */
  lemma ParseOriginsDefault(setting: Option<string>)
    ensures setting.None? || setting.value == [] ==> ParseOrigins(setting) == [DefaultOrigins]
    ensures setting.Some? && setting.value != [] ==> ParseOrigins(setting) == OriginList(setting.value)
  {
    DefaultOriginList();
  }

  /** The default names one origin. */
  lemma DefaultOriginList()
    ensures OriginList(DefaultOrigins) == [DefaultOrigins]
  {
    SinglePieceList(DefaultOrigins);
  }

  /** A trimmed entry without a comma is a list of one. */
  lemma SinglePieceList(entry: string)
    requires TrimmedNonEmpty(entry) && ',' !in entry
    ensures OriginList(entry) == [entry]
  {
    TrimOfTrimmed(entry);
    assert Split(entry, ',') == [entry];
    assert NonEmptyTrimmed([entry]) == [entry] + NonEmptyTrimmed([]);
  }

  /** A header value that JavaScript treats as true: present and non-empty. */
  predicate Truthy(s: Option<string>) {
    s.Some? && s.value != []
  }

  /** `isAllowedOrigin(origin)`. */
  predicate IsAllowedOrigin(origin: Option<string>, allowed: seq<string>) {
    !Truthy(origin) || "*" in allowed || origin.value in allowed
  }

  /** No origin, or a `*` entry, allows everything; otherwise the list decides. */
  lemma AllowedOriginRules(origin: Option<string>, allowed: seq<string>)
    ensures !Truthy(origin) ==> IsAllowedOrigin(origin, allowed)
    ensures "*" in allowed ==> IsAllowedOrigin(origin, allowed)
    ensures Truthy(origin) && "*" !in allowed ==> (IsAllowedOrigin(origin, allowed) <==> origin.value in allowed)
  {
  }

  // ---- the response ----

  const AllowOrigin := "Access-Control-Allow-Origin"
  const VaryHeader := "Vary"
  const AllowMethods := "Access-Control-Allow-Methods"
  const AllowHeaders := "Access-Control-Allow-Headers"
  const ContentType := "Content-Type"

  /** The headers after setCors, from the headers before it. */
  function WithCors(headers: map<string, string>, origin: Option<string>, allowed: seq<string>): map<string, string> {
    var h := if Truthy(origin) && IsAllowedOrigin(origin, allowed) then headers[AllowOrigin := origin.value] else headers;
    h[VaryHeader := "Origin"][AllowMethods := "POST, OPTIONS"][AllowHeaders := "Content-Type"]
  }

  /**
   * Allow-Origin is set to the request origin exactly when there is one and it
   * is allowed; Vary, Methods and Headers are always set; nothing else changes.
   */
  lemma CorsRules(headers: map<string, string>, origin: Option<string>, allowed: seq<string>, other: string)
    requires AllowOrigin !in headers
    requires other !in {AllowOrigin, VaryHeader, AllowMethods, AllowHeaders}
    ensures var h := WithCors(headers, origin, allowed);
      && (AllowOrigin in h <==> Truthy(origin) && IsAllowedOrigin(origin, allowed))
      && (AllowOrigin in h ==> h[AllowOrigin] == origin.value)
      && VaryHeader in h && h[VaryHeader] == "Origin"
      && AllowMethods in h && h[AllowMethods] == "POST, OPTIONS"
      && AllowHeaders in h && h[AllowHeaders] == "Content-Type"
      && (other in h <==> other in headers)
      && (other in headers ==> h[other] == headers[other])
  {
  }

  /** The server response the handler writes to. */
  class Response {
    var statusCode: int
    var headers: map<string, string>
    var body: string

    constructor()
      ensures statusCode == 200 && headers == map[] && body == []
    {
      statusCode := 200;
      headers := map[];
      body := [];
    }

    /** `setCors(res, origin)`. */
    method SetCors(origin: Option<string>, allowed: seq<string>)
      modifies this
      ensures headers == WithCors(old(headers), origin, allowed)
      ensures statusCode == old(statusCode) && body == old(body)
    {
      if Truthy(origin) && IsAllowedOrigin(origin, allowed) {
        headers := headers[AllowOrigin := origin.value];
      }
      headers := headers[VaryHeader := "Origin"];
      headers := headers[AllowMethods := "POST, OPTIONS"];
      headers := headers[AllowHeaders := "Content-Type"];
    }

    /** `res.statusCode = status; res.end(text)`. */
    method Finish(status: int, text: string)
      modifies this
      ensures statusCode == status && body == text && headers == old(headers)
    {
      statusCode := status;
      body := text;
    }
  }

  // ---- the body limit ----

  /** The number of bytes in the chunks. */
  function TotalSize(chunks: seq<seq<bv8>>): nat {
    if chunks == [] then 0 else TotalSize(chunks[..|chunks| - 1]) + |chunks[|chunks| - 1]|
  }

  /** `Buffer.concat(chunks)`. */
  function Concat(chunks: seq<seq<bv8>>): (bytes: seq<bv8>)
    ensures |bytes| == TotalSize(chunks)
  {
    if chunks == [] then [] else Concat(chunks[..|chunks| - 1]) + chunks[|chunks| - 1]
  }

  /** The size only grows as chunks arrive. */
  lemma {:induction false} TotalSizeMonotone(chunks: seq<seq<bv8>>, i: nat, j: nat)
    requires i <= j <= |chunks|
    ensures TotalSize(chunks[..i]) <= TotalSize(chunks[..j])
    decreases j
  {
    if i < j {
      assert chunks[..j][..j - 1] == chunks[..j - 1];
      TotalSizeMonotone(chunks, i, j - 1);
    }
  }

  /** What readBody settles to: the concatenated body, or `None` once the size passes the limit. */
  function BodyOf(chunks: seq<seq<bv8>>, maxBytes: nat): Option<seq<bv8>> {
    if TotalSize(chunks) <= maxBytes then Some(Concat(chunks)) else None
  }

  /** `readBody(req)`: chunks arrive in order; the running size is checked after each one. */
  method ReadBody(chunks: seq<seq<bv8>>, maxBytes: nat) returns (body: Option<seq<bv8>>)
    ensures body.Some? <==> TotalSize(chunks) <= maxBytes
    ensures body.Some? ==> body.value == Concat(chunks) && |body.value| <= maxBytes
    ensures body == BodyOf(chunks, maxBytes)
  {
    var received: seq<seq<bv8>> := [];
    var bytes: seq<bv8> := [];
    var size := 0;
    var i := 0;
    while i < |chunks|
      invariant 0 <= i <= |chunks|
      invariant received == chunks[..i]
      invariant size == TotalSize(received) && size <= maxBytes
      invariant bytes == Concat(received)
    {
      size := size + |chunks[i]|;
      assert chunks[..i + 1][..i] == chunks[..i];
      if size > maxBytes {
        TotalSizeMonotone(chunks, i + 1, |chunks|);
        assert chunks[..|chunks|] == chunks;
        return None;
      }
      received := received + [chunks[i]];
      bytes := bytes + chunks[i];
      i := i + 1;
    }
    assert chunks[..|chunks|] == chunks;
    body := Some(bytes);
  }

  // ---- the upstream URL ----

  /** An upstream base URL, already split into scheme-and-host and path. */
  datatype UrlBase = UrlBase(origin: string, path: string)

  /** `https://api.openai.com/v1`. */
  const DefaultUpstreamBase := UrlBase("https://api.openai.com", "/v1")

  const CompletionsPath := "/chat/completions"

  /** `new URL('/chat/completions', UPSTREAM_BASE)`: an absolute path replaces the base's whole path. */
  function UpstreamUrlAsWritten(base: UrlBase): string {
    base.origin + CompletionsPath
  }

  /** The completions endpoint under the base path, as the default `/v1` base expects. */
  function UpstreamUrl(base: UrlBase): (url: string)
    ensures StartsWith(url, base.origin + base.path)
    ensures EndsWith(url, CompletionsPath)
  {
    var url := base.origin + base.path + CompletionsPath;
    assert url[..|base.origin + base.path|] == base.origin + base.path;
    assert url[|url| - |CompletionsPath|..] == CompletionsPath;
    url
  }

  /** As written, the base path is lost: the default base sends to `/chat/completions` without `/v1`. */
  lemma UpstreamUrlDropsBasePath(base: UrlBase)
    ensures UpstreamUrlAsWritten(base) == UpstreamUrlAsWritten(UrlBase(base.origin, []))
    ensures !StartsWith(UpstreamUrlAsWritten(DefaultUpstreamBase), DefaultUpstreamBase.origin + DefaultUpstreamBase.path)
    ensures UpstreamUrlAsWritten(DefaultUpstreamBase) != UpstreamUrl(DefaultUpstreamBase)
  {
    var written := UpstreamUrlAsWritten(DefaultUpstreamBase);
    var intended := UpstreamUrl(DefaultUpstreamBase);
    assert |written| + 3 == |intended|;
    assert written[23] == 'c';
    assert (DefaultUpstreamBase.origin + DefaultUpstreamBase.path)[23] == 'v';
  }

  // ---- the request handler ----

  const ChatPath := "/api/llm/chat/completions"

  /** What the handler sees of a request. */
  datatype Request = Request(verb: string, path: string, origin: Option<string>, chunks: seq<seq<bv8>>)

  /** The settings the handler reads. */
  datatype ProxyConfig = ProxyConfig(apiKey: Option<string>, upstreamBase: UrlBase, allowed: seq<string>, maxBodyBytes: nat)

  /** `process.env[key]`. */
  function Lookup(vars: map<string, string>, key: string): (value: Option<string>)
    ensures value.Some? <==> key in vars
    ensures value.Some? ==> value.value == vars[key]
  {
    if key in vars then Some(vars[key]) else None
  }

  const ApiKeyVar := "OPENAI_API_KEY"
  const BaseUrlVar := "OPENAI_BASE_URL"
  const OriginsVar := "ALLOWED_ORIGINS"
  const MaxBodyVar := "LLM_PROXY_MAX_BODY_BYTES"

  const DefaultUpstreamBaseText := "https://api.openai.com/v1"
  const DefaultMaxBodyBytes: nat := 1000000

  /**
   * The settings read once from the loaded environment: the key as set, the
   * base URL or its default, the origin list, and the body limit or its
   * default. `parseBase` stands for URL parsing and `parseSize` for `Number`.
   */
  function ConfigOf(vars: map<string, string>, parseBase: string -> UrlBase, parseSize: string -> nat): (config: ProxyConfig)
    ensures config.apiKey.Some? <==> ApiKeyVar in vars
    ensures config.apiKey.Some? ==> config.apiKey.value == vars[ApiKeyVar]
    ensures config.allowed == ParseOrigins(Lookup(vars, OriginsVar))
    ensures BaseUrlVar in vars && vars[BaseUrlVar] != [] ==> config.upstreamBase == parseBase(vars[BaseUrlVar])
    ensures !(BaseUrlVar in vars && vars[BaseUrlVar] != []) ==> config.upstreamBase == parseBase(DefaultUpstreamBaseText)
    ensures MaxBodyVar in vars && vars[MaxBodyVar] != [] ==> config.maxBodyBytes == parseSize(vars[MaxBodyVar])
    ensures !(MaxBodyVar in vars && vars[MaxBodyVar] != []) ==> config.maxBodyBytes == DefaultMaxBodyBytes
  {
    var base := Lookup(vars, BaseUrlVar);
    var size := Lookup(vars, MaxBodyVar);
    ProxyConfig(
      Lookup(vars, ApiKeyVar),
      parseBase(if Truthy(base) then base.value else DefaultUpstreamBaseText),
      ParseOrigins(Lookup(vars, OriginsVar)),
      if Truthy(size) then parseSize(size.value) else DefaultMaxBodyBytes)
  }

  /**
   * A key that the process environment lacks and that `.env.local` defines
   * reaches the handler as the first definition in that file, whatever
   * `.env` says.
   */
  lemma ApiKeyFromLocalFile(vars: map<string, string>, local: string, dotenv: Option<string>, i: nat,
                            parseBase: string -> UrlBase, parseSize: string -> nat)
    requires ApiKeyVar !in vars && i < |SplitLines(local)|
    requires Defines(ParseEnvLine(SplitLines(local)[i]), ApiKeyVar)
    requires forall j :: 0 <= j < i ==> !Defines(ParseEnvLine(SplitLines(local)[j]), ApiKeyVar)
    ensures ConfigOf(EnvFile(EnvFile(vars, Some(local)), dotenv), parseBase, parseSize).apiKey
            == Some(ParseEnvLine(SplitLines(local)[i]).value.value)
  {
    FirstDefinitionWins(vars, SplitLines(local), i, ApiKeyVar);
    LocalFileWins(vars, Some(local), dotenv, ApiKeyVar);
  }

  /** An origin list set in the process environment is the one the handler uses, whatever the files say. */
  lemma EnvironmentOriginsWin(vars: map<string, string>, local: Option<string>, dotenv: Option<string>,
                              parseBase: string -> UrlBase, parseSize: string -> nat)
    requires OriginsVar in vars
    ensures ConfigOf(EnvFile(EnvFile(vars, local), dotenv), parseBase, parseSize).allowed == ParseOrigins(Some(vars[OriginsVar]))
  {
    if local.Some? {
      var lines := SplitLines(local.value);
      EnvKeepsExisting(vars, lines, |lines|, OriginsVar);
    }
    LocalFileWins(vars, local, dotenv, OriginsVar);
  }

  /** The request sent upstream; its body is the received bytes read as UTF-8. */
  datatype Forward = Forward(url: string, apiKey: string, body: string)

  /** The upstream answer: its status, its text and its content-type header if any. */
  datatype Upstream = Upstream(status: int, text: string, contentType: Option<string>)

  /** How a request ends: the status and text written, the request sent upstream if any, and the content type set for a relayed answer. */
  datatype Outcome = Outcome(status: int, text: string, forwarded: Option<Forward>, contentType: Option<string>)

  /**
   * The handler's checks in their fixed order, as a value. `utf8` stands for
   * `toString('utf8')`, which replaces malformed sequences, and the request
   * goes to the URL the source builds, without the base path.
   */
  function Decide(req: Request, config: ProxyConfig, utf8: seq<bv8> -> string, send: Forward -> Option<Upstream>): Outcome {
    if req.verb == "OPTIONS" then Outcome(204, [], None, None)
    else if req.verb != "POST" || req.path != ChatPath then Outcome(404, "Not found", None, None)
    else if !IsAllowedOrigin(req.origin, config.allowed) then Outcome(403, "Origin not allowed", None, None)
    else if !Truthy(config.apiKey) then Outcome(500, "Server missing OPENAI_API_KEY", None, None)
    else
      match BodyOf(req.chunks, config.maxBodyBytes)
      case None => Outcome(413, "Payload too large", None, None)
      case Some(body) =>
        var fwd := Forward(UpstreamUrlAsWritten(config.upstreamBase), config.apiKey.value, utf8(body));
        match send(fwd)
        case None => Outcome(502, "Upstream request failed", Some(fwd), None)
        case Some(u) =>
          Outcome(u.status, u.text, Some(fwd), Some(if Truthy(u.contentType) then u.contentType.value else "application/json"))
  }

  /** Every request passes every check before anything is sent upstream. */
  predicate ChecksPass(req: Request, config: ProxyConfig) {
    && req.verb == "POST" && req.path == ChatPath
    && IsAllowedOrigin(req.origin, config.allowed)
    && Truthy(config.apiKey)
    && TotalSize(req.chunks) <= config.maxBodyBytes
  }

  /** The status precedence: each early answer happens exactly when every earlier check passed and its own failed. */
  lemma StatusPrecedence(req: Request, config: ProxyConfig, utf8: seq<bv8> -> string, send: Forward -> Option<Upstream>)
    ensures var o := Decide(req, config, utf8, send);
      var routed := req.verb == "POST" && req.path == ChatPath;
      var allowed := IsAllowedOrigin(req.origin, config.allowed);
      && (req.verb == "OPTIONS" ==> o.status == 204)
      && (req.verb != "OPTIONS" && !routed ==> o.status == 404)
      && (routed && !allowed ==> o.status == 403)
      && (routed && allowed && !Truthy(config.apiKey) ==> o.status == 500)
      && (routed && allowed && Truthy(config.apiKey) && TotalSize(req.chunks) > config.maxBodyBytes ==> o.status == 413)
  {
  }

  /**
   * Something is sent upstream exactly when every check passes, and then it
   * carries the whole body in order, decoded, the key and the URL the source
   * builds (the origin of the base with `/chat/completions`, so the default
   * base loses its `/v1`); the answer is 502 when the call throws and the
   * upstream status otherwise.
   */
  lemma ForwardOnlyWhenChecksPass(req: Request, config: ProxyConfig, utf8: seq<bv8> -> string, send: Forward -> Option<Upstream>)
    ensures var o := Decide(req, config, utf8, send);
      && (o.forwarded.Some? <==> ChecksPass(req, config))
      && (o.forwarded.Some? ==>
            && o.forwarded.value == Forward(config.upstreamBase.origin + CompletionsPath, config.apiKey.value, utf8(Concat(req.chunks)))
            && (send(o.forwarded.value).None? ==> o.status == 502)
            && (send(o.forwarded.value).Some? ==>
                  o.status == send(o.forwarded.value).value.status && o.text == send(o.forwarded.value).value.text))
  {
  }

  /**
   * With no `OPENAI_BASE_URL`, and `new URL` reading the default text as
   * origin `https://api.openai.com` with path `/v1`, a forwarded request goes
   * to `https://api.openai.com/chat/completions`, not to the `/v1` endpoint.
   */
  lemma DefaultConfigForwardsWithoutBasePath(req: Request, vars: map<string, string>, parseBase: string -> UrlBase,
                                             parseSize: string -> nat, utf8: seq<bv8> -> string, send: Forward -> Option<Upstream>)
    requires parseBase(DefaultUpstreamBaseText) == DefaultUpstreamBase
    requires !(BaseUrlVar in vars && vars[BaseUrlVar] != [])
    ensures var o := Decide(req, ConfigOf(vars, parseBase, parseSize), utf8, send);
      o.forwarded.Some? ==> o.forwarded.value.url == "https://api.openai.com" + "/chat/completions"
                            && o.forwarded.value.url != UpstreamUrl(DefaultUpstreamBase)
  {
    var config := ConfigOf(vars, parseBase, parseSize);
    assert config.upstreamBase == DefaultUpstreamBase;
    ForwardOnlyWhenChecksPass(req, config, utf8, send);
    UpstreamUrlDropsBasePath(DefaultUpstreamBase);
  }

  /**
   * The server's request handler: CORS headers first, then the checks in order
   * with an early answer each; `forwarded` is what was sent upstream.
   */
  method Handle(res: Response, req: Request, config: ProxyConfig, utf8: seq<bv8> -> string, send: Forward -> Option<Upstream>)
    returns (forwarded: Option<Forward>)
    modifies res
    ensures var o := Decide(req, config, utf8, send);
      && res.statusCode == o.status && res.body == o.text && forwarded == o.forwarded
      && res.headers == (if o.contentType.Some? then WithCors(old(res.headers), req.origin, config.allowed)[ContentType := o.contentType.value]
                         else WithCors(old(res.headers), req.origin, config.allowed))
  {
    res.SetCors(req.origin, config.allowed);
    forwarded := None;
    if req.verb == "OPTIONS" {
      res.Finish(204, []);
      return;
    }
    if req.verb != "POST" || req.path != ChatPath {
      res.Finish(404, "Not found");
      return;
    }
    if !IsAllowedOrigin(req.origin, config.allowed) {
      res.Finish(403, "Origin not allowed");
      return;
    }
    if !Truthy(config.apiKey) {
      res.Finish(500, "Server missing OPENAI_API_KEY");
      return;
    }
    var body := ReadBody(req.chunks, config.maxBodyBytes);
    if body.None? {
      res.Finish(413, "Payload too large");
      return;
    }
    var fwd := Forward(UpstreamUrlAsWritten(config.upstreamBase), config.apiKey.value, utf8(body.value));
    forwarded := Some(fwd);
    var answer := send(fwd);
    if answer.None? {
      res.Finish(502, "Upstream request failed");
      return;
    }
    var u := answer.value;
    var contentType := if Truthy(u.contentType) then u.contentType.value else "application/json";
    res.headers := res.headers[ContentType := contentType];
    res.Finish(u.status, u.text);
  }
}
