/**
 * The cURL adapter: the base option map it is built with, the translation of
 * a request into per-request options, the session it drives, and the parsing
 * of the raw reply (status line, header lines, body) into a response.
 * The session itself (libcurl) is an abstract object whose behaviour is a
 * parameter: whether it opens, and what a transfer with given options yields.
 */
module Curl {
  import opened Wrappers
  import opened Http

  // libcurl option numbers, as PHP's cURL extension defines them
  const OptInFileSize := 14
  const OptHeader := 42
  const OptNoBody := 44
  const OptPost := 47
  const OptPut := 54
  const OptSslVerifyPeer := 64
  const OptHttpGet := 80
  const OptSslVerifyHost := 81
  const OptUrl := 10002
  const OptInFile := 10009
  const OptPostFields := 10015
  const OptUserAgent := 10018
  const OptHttpHeader := 10023
  const OptCustomRequest := 10036
  const OptReturnTransfer := 19913

  /** The options the adapter always sets itself, whatever it is constructed with. */
  const Enforced: set<int> := {OptReturnTransfer, OptHeader, OptSslVerifyPeer, OptSslVerifyHost}

  /** The options that carry the request method. */
  const VerbKeys: set<int> := {OptNoBody, OptHttpGet, OptPost, OptPostFields, OptPut, OptInFile, OptInFileSize, OptCustomRequest}

  /** A string PHP treats as false: the empty string and the string zero. */
  predicate FalsyString(s: string) {
    s == "" || s == "0"
  }

  /** The server's user agent unless it is missing or false, otherwise `Curl/PHP` followed by the engine version. */
  function DefaultUserAgent(serverUserAgent: Option<string>, phpVersion: string): string {
    if serverUserAgent.Some? && !FalsyString(serverUserAgent.value) then serverUserAgent.value
    else "Curl/PHP" + phpVersion
  }

  /**
   * The defaults, then the supplied options, then the required transfer options,
   * then the security options, each later map winning on a shared key.
   * The transfer and security options hold whatever is supplied, and what is
   * supplied overrides only the default user agent.
   */
  function BaseOptions(userAgent: string, given: Options): (o: Options)
    ensures o.Keys == given.Keys + Enforced + {OptUserAgent}
    ensures o[OptReturnTransfer] == Flag(true) && o[OptHeader] == Flag(true)
    ensures o[OptSslVerifyPeer] == Int(1) && o[OptSslVerifyHost] == Int(2)
    ensures o[OptUserAgent] == if OptUserAgent in given then given[OptUserAgent] else Text(userAgent)
    ensures forall k :: k in given && k !in Enforced ==> o[k] == given[k]
  {
    map[OptUserAgent := Text(userAgent)]
      + given
      + map[OptReturnTransfer := Flag(true), OptHeader := Flag(true)]
      + map[OptSslVerifyPeer := Int(1), OptSslVerifyHost := Int(2)]
  }

  /** PHP's array union of the per-request and the base options: on a shared key the per-request value wins. */
  function Merge(perRequest: Options, base: Options): (o: Options)
    ensures o.Keys == perRequest.Keys + base.Keys
    ensures forall k :: k in perRequest ==> o[k] == perRequest[k]
    ensures forall k :: k in base && k !in perRequest ==> o[k] == base[k]
  {
    base + perRequest
  }

  // ---------------------------------------------------------------- request

  /** One header field as a line: `Name: v1, v2` (sections 3.2 and 3.2.2 of RFC 7230). */
  function FieldLine(h: Header): string {
    h.name + ": " + Join(h.values, ", ")
  }

  /** One line per header field, in the request's order. */
  function FieldLines(hs: Headers): seq<string> {
    seq(|hs|, i requires 0 <= i < |hs| => FieldLine(hs[i]))
  }

  /** The request after the method switch has dropped the length headers cURL sets itself. */
  function Checked(req: Request): (r: Request)
    ensures r.verb == req.verb && r.uri == req.uri && r.body == req.body
    ensures req.verb == "POST" ==> !r.HasHeader("Content-Length") && !r.HasHeader("Transfer-Encoding")
    ensures req.verb == "PUT" ==> !r.HasHeader("Content-Length")
    ensures req.verb != "POST" && req.verb != "PUT" ==> r == req
  {
    WithoutHasField(req.headers, "Content-Length", "Content-Length");
    WithoutHasField(Without(req.headers, "Content-Length"), "Transfer-Encoding", "Content-Length");
    WithoutHasField(Without(req.headers, "Content-Length"), "Transfer-Encoding", "Transfer-Encoding");
    if req.verb == "POST" then req.WithoutHeader("Content-Length").WithoutHeader("Transfer-Encoding")
    else if req.verb == "PUT" then req.WithoutHeader("Content-Length")
    else req
  }

  /** The method switch: exact, case-sensitive comparison of the method name. */
  function VerbOptions(req: Request): Options {
    if req.verb == "HEAD" then map[OptNoBody := Flag(true)]
    else if req.verb == "GET" then map[OptHttpGet := Flag(true)]
    else if req.verb == "POST" then map[OptPost := Flag(true), OptPostFields := Text(req.body)]
    else if req.verb == "PUT" then
      // the body goes to a temporary file; its size is the number of bytes written
      map[OptPut := Flag(true), OptInFile := TempFile(req.body), OptInFileSize := Int(|req.body|)]
    else map[OptCustomRequest := Text(req.verb)]
  }

  /** Empty `Expect:` and `Content-Type:` lines keep cURL from adding those fields itself. */
  function Suppressions(req: Request): (r: seq<string>)
    ensures "Expect:" in r <==> !req.HasHeader("Expect")
    ensures "Content-Type:" in r <==> !req.HasHeader("Content-Type")
    ensures forall i :: 0 <= i < |r| ==> r[i] == "Expect:" || r[i] == "Content-Type:"
  {
    (if !req.HasHeader("Expect") then ["Expect:"] else [])
      + (if !req.HasHeader("Content-Type") then ["Content-Type:"] else [])
  }

  /** The per-request options `__invoke` builds. */
  function RequestOptions(req: Request): Options {
    WithLines(FieldLines(req.headers) + Suppressions(Checked(req)), req)
  }

  /** The options for a request with the given header lines. */
  function WithLines(lines: seq<string>, req: Request): Options {
    map[OptHttpHeader := Lines(lines), OptUrl := Text(req.uri)] + VerbOptions(req)
  }

  /** Replacing the header lines leaves the URL and the method options alone. */
  lemma Reline(lines: seq<string>, more: seq<string>, req: Request)
    ensures WithLines(lines, req)[OptHttpHeader := Lines(more)] == WithLines(more, req)
  {
    VerbKeysOnly(req);
  }

  /** Names of different lengths never denote the same field. */
  lemma LengthsDiffer(a: string, b: string)
    requires |a| != |b|
    ensures !SameName(a, b)
  {
    assert |Lower(a)| == |a| && |Lower(b)| == |b|;
  }

  /**
   * The translation rules: the URL, one line per request field in order
   * (the length fields included: they are dropped only after the lines are
   * built), an empty `Expect:` exactly when the request has no `Expect` and an
   * empty `Content-Type:` exactly when it has no `Content-Type`, and the
   * method mapped to its own options and nothing else.
   */
  lemma TranslationRules(req: Request)
    ensures var o := RequestOptions(req);
      && o[OptUrl] == Text(req.uri)
      && o[OptHttpHeader] == Lines(FieldLines(req.headers)
           + (if !req.HasHeader("Expect") then ["Expect:"] else [])
           + (if !req.HasHeader("Content-Type") then ["Content-Type:"] else []))
      && (req.verb == "HEAD" ==> o.Keys == {OptHttpHeader, OptUrl, OptNoBody} && o[OptNoBody] == Flag(true))
      && (req.verb == "GET" ==> o.Keys == {OptHttpHeader, OptUrl, OptHttpGet} && o[OptHttpGet] == Flag(true))
      && (req.verb == "POST" ==>
            o.Keys == {OptHttpHeader, OptUrl, OptPost, OptPostFields}
            && o[OptPost] == Flag(true) && o[OptPostFields] == Text(req.body))
      && (req.verb == "PUT" ==>
            o.Keys == {OptHttpHeader, OptUrl, OptPut, OptInFile, OptInFileSize}
            && o[OptPut] == Flag(true) && o[OptInFile] == TempFile(req.body) && o[OptInFileSize] == Int(|req.body|))
      && (req.verb !in {"HEAD", "GET", "POST", "PUT"} ==>
            o.Keys == {OptHttpHeader, OptUrl, OptCustomRequest}
            && o[OptCustomRequest] == Text(req.verb))
  {
    SuppressionsUnchecked(req);
    LinesAndVerb(FieldLines(req.headers) + Suppressions(req), req);
  }

  /** Dropping the length fields never changes whether `Expect` or `Content-Type` is present. */
  lemma SuppressionsUnchecked(req: Request)
    ensures Suppressions(Checked(req)) == Suppressions(req)
  {
    var hs := req.headers;
    LengthsDiffer("Content-Length", "Expect");
    LengthsDiffer("Content-Length", "Content-Type");
    LengthsDiffer("Transfer-Encoding", "Expect");
    LengthsDiffer("Transfer-Encoding", "Content-Type");
    WithoutHasField(hs, "Content-Length", "Expect");
    WithoutHasField(hs, "Content-Length", "Content-Type");
    WithoutHasField(Without(hs, "Content-Length"), "Transfer-Encoding", "Expect");
    WithoutHasField(Without(hs, "Content-Length"), "Transfer-Encoding", "Content-Type");
  }

  /**
   * As written, the length fields are removed only after the header lines
   * are built: a POST that carries `Content-Length` still sends that line,
   * beside the length cURL computes itself.
   */
  lemma LengthFieldStillSent(uri: string, body: string)
    ensures var req := Request("POST", uri, [Header("Content-Length", ["3"])], body);
      && !Checked(req).HasHeader("Content-Length")
      && "Content-Length: 3" in RequestOptions(req)[OptHttpHeader].lines
  {
    var req := Request("POST", uri, [Header("Content-Length", ["3"])], body);
    WithoutHasField(req.headers, "Content-Length", "Content-Length");
    WithoutHasField(Without(req.headers, "Content-Length"), "Transfer-Encoding", "Content-Length");
    assert Join(["3"], ", ") == "3";
    assert FieldLines(req.headers)[0] == "Content-Length: 3";
    LinesAndVerb(FieldLines(req.headers) + Suppressions(Checked(req)), req);
    assert RequestOptions(req)[OptHttpHeader].lines[0] == "Content-Length: 3";
  }

  /**
   * The translation as its comment intends: the header lines are built from
   * the request after the method switch dropped the length fields, so a POST
   * sends neither `Content-Length` nor `Transfer-Encoding` and a PUT no
   * `Content-Length`; every other field is still sent, and every other option
   * is as in the code as written.
   */
  function IntendedRequestOptions(req: Request): (o: Options)
    ensures var sent := Checked(req).headers;
      && o == RequestOptions(req)[OptHttpHeader := Lines(FieldLines(sent) + Suppressions(req))]
      && (req.verb == "POST" ==> !HasField(sent, "Content-Length") && !HasField(sent, "Transfer-Encoding"))
      && (req.verb == "PUT" ==> !HasField(sent, "Content-Length"))
      && (forall h :: h in req.headers && !SameName(h.name, "Content-Length") && !SameName(h.name, "Transfer-Encoding") ==> h in sent)
  {
    SuppressionsUnchecked(req);
    Reline(FieldLines(req.headers) + Suppressions(req), FieldLines(Checked(req).headers) + Suppressions(req), req);
    var hs := req.headers;
    WithoutHasField(hs, "Content-Length", "Content-Length");
    WithoutHasField(Without(hs, "Content-Length"), "Transfer-Encoding", "Content-Length");
    WithoutHasField(Without(hs, "Content-Length"), "Transfer-Encoding", "Transfer-Encoding");
    forall h | h in hs && !SameName(h.name, "Content-Length") && !SameName(h.name, "Transfer-Encoding")
      ensures h in Checked(req).headers
    {
      WithoutKeeps(hs, "Content-Length", h);
      WithoutKeeps(Without(hs, "Content-Length"), "Transfer-Encoding", h);
    }
    WithLines(FieldLines(Checked(req).headers) + Suppressions(Checked(req)), req)
  }

  /** The options for given header lines: those lines, the URL, and the method's own options. */
  lemma LinesAndVerb(lines: seq<string>, req: Request)
    ensures var o := WithLines(lines, req);
      && o[OptUrl] == Text(req.uri)
      && o[OptHttpHeader] == Lines(lines)
      && (req.verb == "HEAD" ==> o.Keys == {OptHttpHeader, OptUrl, OptNoBody} && o[OptNoBody] == Flag(true))
      && (req.verb == "GET" ==> o.Keys == {OptHttpHeader, OptUrl, OptHttpGet} && o[OptHttpGet] == Flag(true))
      && (req.verb == "POST" ==>
            o.Keys == {OptHttpHeader, OptUrl, OptPost, OptPostFields}
            && o[OptPost] == Flag(true) && o[OptPostFields] == Text(req.body))
      && (req.verb == "PUT" ==>
            o.Keys == {OptHttpHeader, OptUrl, OptPut, OptInFile, OptInFileSize}
            && o[OptPut] == Flag(true) && o[OptInFile] == TempFile(req.body) && o[OptInFileSize] == Int(|req.body|))
      && (req.verb !in {"HEAD", "GET", "POST", "PUT"} ==>
            o.Keys == {OptHttpHeader, OptUrl, OptCustomRequest}
            && o[OptCustomRequest] == Text(req.verb))
  {
    VerbKeysOnly(req);
  }

  /**
   * Whatever the request, merging its options over the base keeps the
   * transfer and security settings and the base user agent: the request
   * translation never names them.
   */
  lemma RequestKeepsEnforced(req: Request, userAgent: string, given: Options)
    ensures var o := Merge(RequestOptions(req), BaseOptions(userAgent, given));
      && o[OptReturnTransfer] == Flag(true) && o[OptHeader] == Flag(true)
      && o[OptSslVerifyPeer] == Int(1) && o[OptSslVerifyHost] == Int(2)
      && o[OptUserAgent] == BaseOptions(userAgent, given)[OptUserAgent]
  {
    RequestOptionKeys(FieldLines(req.headers) + Suppressions(Checked(req)), req);
  }

  lemma VerbKeysOnly(req: Request)
    ensures VerbOptions(req).Keys <= VerbKeys
  {
  }

  /** The translation never sets the transfer, security or user-agent options, whatever its header lines. */
  lemma RequestOptionKeys(lines: seq<string>, req: Request)
    ensures var o := WithLines(lines, req);
      && OptReturnTransfer !in o && OptHeader !in o
      && OptSslVerifyPeer !in o && OptSslVerifyHost !in o && OptUserAgent !in o
  {
    VerbKeysOnly(req);
  }

  // ---------------------------------------------------------------- session

  /** What a transfer yields: the raw reply and the size of its header section. */
  datatype Transfer = Transfer(raw: string, headerSize: nat)

  /**
   * The behaviour of the cURL sessions the adapter creates: whether a session
   * opens, what a transfer with the given options yields (`None` for a failed
   * transfer), and the error a failed transfer reports.
   */
  datatype Network = Network(opens: bool, exchange: Options -> Option<Transfer>, errorMessage: string, errorCode: int)

  datatype Phase = Created | Opened | Closed

  /** A cURL session handle: opened, given options, executed once, closed. */
  class Session {
    const network: Network
    var phase: Phase
    var applied: Options
    var transfer: Option<Transfer>

    constructor (network: Network)
      ensures this.network == network
      ensures phase == Created && applied == map[] && transfer == None
    {
      this.network := network;
      phase := Created;
      applied := map[];
      transfer := None;
    }

    method Open() returns (ok: bool)
      modifies this`phase
      ensures ok == network.opens
      ensures phase == if ok then Opened else old(phase)
    {
      ok := network.opens;
      if ok {
        phase := Opened;
      }
    }

    method SetOptions(options: Options)
      requires phase == Opened
      modifies this`applied
      ensures applied == options
    {
      applied := options;
    }

    method Execute() returns (raw: Option<string>)
      requires phase == Opened
      modifies this`transfer
      ensures transfer == network.exchange(applied)
      ensures raw == if transfer.Some? then Some(transfer.value.raw) else None
    {
      transfer := network.exchange(applied);
      raw := if transfer.Some? then Some(transfer.value.raw) else None;
    }

    method HeaderSize() returns (n: nat)
      requires transfer.Some?
      ensures n == transfer.value.headerSize
    {
      n := transfer.value.headerSize;
    }

    method ErrorMessage() returns (m: string)
      ensures m == network.errorMessage
    {
      m := network.errorMessage;
    }

    method ErrorCode() returns (c: int)
      ensures c == network.errorCode
    {
      c := network.errorCode;
    }

    method Close()
      modifies this`phase
      ensures phase == Closed
    {
      phase := Closed;
    }
  }

  /** The two parts of a raw reply: the body and, unless it is falsy, the header section. */
  datatype Reply = Reply(body: string, head: Option<string>)

  /**
   * Split the raw reply at the header size: the body is the suffix after it,
   * the header section the prefix before it (`null` when that prefix is falsy),
   * and header section followed by body is the raw reply again.
   */
  function SplitReply(raw: string, headerSize: nat): (r: Reply)
    ensures |r.body| == if headerSize <= |raw| then |raw| - headerSize else 0
    ensures r.body == raw[|raw| - |r.body|..]
    ensures r.head.Some? ==> r.head.value + r.body == raw
    ensures r.head.None? <==> FalsyString(raw[..|raw| - |r.body|])
  {
    var n := if headerSize <= |raw| then headerSize else |raw|;
    Reply(raw[n..], if FalsyString(raw[..n]) then None else Some(raw[..n]))
  }

  /**
   * What `execute` does with a session of the given behaviour: an exception
   * when the session does not open or the transfer fails, otherwise the
   * reply split at the header size.
   */
  function Perform(net: Network, options: Options): (r: Result<Reply, Error>)
    ensures !net.opens ==> r == Failure(RuntimeException("Cannot initialize a cURL session", 0))
    ensures net.opens && net.exchange(options).None? ==> r == Failure(RuntimeException(net.errorMessage, net.errorCode))
    ensures net.opens && net.exchange(options).Some? ==>
              r == Success(SplitReply(net.exchange(options).value.raw, net.exchange(options).value.headerSize))
  {
    if !net.opens then Failure(RuntimeException("Cannot initialize a cURL session", 0))
    else match net.exchange(options)
      case None => Failure(RuntimeException(net.errorMessage, net.errorCode))
      case Some(t) => Success(SplitReply(t.raw, t.headerSize))
  }

  // ---------------------------------------------------------------- reply parsing

  /** PCRE's `\s`: space, tab, line feed, vertical tab, form feed, carriage return. */
  predicate IsSpace(c: char) {
    c == ' ' || c == '\t' || c == '\n' || c == '\r' || c == 11 as char || c == 12 as char
  }

  /** The string without its leading whitespace. */
  function TrimStart(s: string): (r: string)
    ensures |r| <= |s| && r == s[|s| - |r|..]
    ensures r != "" ==> !IsSpace(r[0])
    ensures forall i :: 0 <= i < |s| - |r| ==> IsSpace(s[i])
    decreases |s|
  {
    if s != "" && IsSpace(s[0]) then TrimStart(s[1..]) else s
  }

  /** The string without its trailing whitespace. */
  function TrimEnd(s: string): (r: string)
    ensures |r| <= |s| && r == s[..|r|]
    ensures r != "" ==> !IsSpace(r[|r| - 1])
    ensures forall i :: |r| <= i < |s| ==> IsSpace(s[i])
    decreases |s|
  {
    if s != "" && IsSpace(s[|s| - 1]) then TrimEnd(s[..|s| - 1]) else s
  }

  /** The index of the first `c` in `s`, if any. */
  function FindChar(s: string, c: char): (r: Option<nat>)
    ensures r.Some? ==> r.value < |s| && s[r.value] == c && c !in s[..r.value]
    ensures r.None? <==> c !in s
    decreases |s|
  {
    if s == "" then None
    else if s[0] == c then Some(0)
    else match FindChar(s[1..], c)
      case None => None
      case Some(i) => assert s[..i + 1] == [s[0]] + s[1..][..i]; Some(i + 1)
  }

  /** A split that drops empty pieces keeps a piece only when it is not empty. */
  function Keep(piece: string): seq<string> {
    if piece == "" then [] else [piece]
  }

  /** The values between commas, whitespace around each comma removed, empty values dropped. */
  function SplitValues(s: string): (r: seq<string>)
    ensures forall i :: 0 <= i < |r| ==> r[i] != "" && ',' !in r[i]
    decreases |s|
  {
    match FindChar(s, ',')
    case None => Keep(s)
    case Some(c) => Keep(TrimEnd(s[..c])) + SplitValues(TrimStart(s[c + 1..]))
  }

  /**
   * A split into at most two pieces at a colon with the whitespace around it:
   * the name before the first colon and the rest after it, unsplit. An empty
   * name is dropped without using up the limit of two, so the rest is split again.
   */
  function ColonPieces(s: string): (r: seq<string>)
    ensures |r| <= 2 && forall i :: 0 <= i < |r| ==> r[i] != ""
    decreases |s|
  {
    match FindChar(s, ':')
    case None => Keep(s)
    case Some(c) =>
      var name := TrimEnd(s[..c]);
      var rest := TrimStart(s[c + 1..]);
      if name == "" then ColonPieces(rest) else [name] + Keep(rest)
  }

  /**
   * One header line as a field: the name, and its values split at commas.
   * A missing piece is PHP's null: an empty name, no values.
   */
  function ParseField(line: string): (r: Header)
    ensures r.values != [] ==> r.name != ""
    ensures ':' !in line ==> r.values == []
  {
    var pieces := ColonPieces(line);
    Header(if |pieces| > 0 then pieces[0] else "", if |pieces| > 1 then SplitValues(pieces[1]) else [])
  }

  function ParseFields(lines: seq<string>): seq<Header> {
    seq(|lines|, i requires 0 <= i < |lines| => ParseField(lines[i]))
  }

  /** A carriage return and line feed at `j`. */
  predicate CrlfAt(s: string, j: int) {
    0 <= j && j + 1 < |s| && s[j] == '\r' && s[j + 1] == '\n'
  }

  /** The index of the first line break, if any. */
  function FindCrlf(s: string): (r: Option<nat>)
    ensures r.Some? ==> CrlfAt(s, r.value) && forall j :: 0 <= j < r.value ==> !CrlfAt(s, j)
    ensures r.None? ==> forall j :: !CrlfAt(s, j)
    decreases |s|
  {
    if |s| < 2 then None
    else if s[0] == '\r' && s[1] == '\n' then Some(0)
    else match FindCrlf(s[1..])
      case None =>
        assert forall j :: CrlfAt(s, j) && j > 0 ==> CrlfAt(s[1..], j - 1);
        None
      case Some(i) =>
        assert forall j :: CrlfAt(s, j) && j > 0 ==> CrlfAt(s[1..], j - 1);
        Some(i + 1)
  }

  /** The pieces between line breaks (carriage return, line feed), empty pieces dropped. */
  function SplitCrlf(s: string): (r: seq<string>)
    ensures forall k :: 0 <= k < |r| ==> r[k] != ""
    ensures forall k, j :: 0 <= k < |r| ==> !CrlfAt(r[k], j)
    decreases |s|
  {
    match FindCrlf(s)
    case None => Keep(s)
    case Some(i) =>
      assert forall j :: CrlfAt(s[..i], j) ==> CrlfAt(s, j) && j < i;
      Keep(s[..i]) + SplitCrlf(s[i + 2..])
  }

  predicate IsDigit(c: char) {
    '0' <= c <= '9'
  }

  /** At `i`: `HTTP/`, a digit, a dot, a digit, whitespace, three digits, whitespace. */
  predicate StatusAt(s: string, i: nat) {
    && i + 13 <= |s|
    && s[i..i + 5] == "HTTP/"
    && IsDigit(s[i + 5]) && s[i + 6] == '.' && IsDigit(s[i + 7])
    && IsSpace(s[i + 8])
    && IsDigit(s[i + 9]) && IsDigit(s[i + 10]) && IsDigit(s[i + 11])
    && IsSpace(s[i + 12])
  }

  /** The leftmost match at or after `from`: the pattern is not anchored. */
  function FindStatus(s: string, from: nat): (r: Option<nat>)
    ensures r.Some? ==> from <= r.value && StatusAt(s, r.value)
    ensures r.Some? ==> forall j :: from <= j < r.value ==> !StatusAt(s, j)
    ensures r.None? ==> forall j :: from <= j ==> !StatusAt(s, j)
    decreases |s| - from
  {
    if from + 13 > |s| then None
    else if StatusAt(s, from) then Some(from)
    else FindStatus(s, from + 1)
  }

  /** The reason capture: everything up to the first line feed. */
  function UntilNewline(s: string): (r: string)
    ensures |r| <= |s| && r == s[..|r|] && '\n' !in r
    ensures |r| < |s| ==> s[|r|] == '\n'
  {
    match FindChar(s, '\n')
    case None => s
    case Some(i) => s[..i]
  }

  function DigitValue(c: char): int {
    c as int - '0' as int
  }

  /** The three captures of the status line: protocol version, status code, reason phrase. */
  datatype StatusLine = StatusLine(version: string, code: int, reason: string)

  /** The status-line match: the version, the three-digit code, and the rest of the line as the reason. */
  function MatchStatusLine(s: string): (r: Option<StatusLine>)
    ensures r.None? <==> forall i :: !StatusAt(s, i)
    ensures r.Some? ==> WellFormedStatus(r.value)
  {
    match FindStatus(s, 0)
    case None => None
    case Some(i) =>
      Some(StatusLine(s[i + 5..i + 8],
                      100 * DigitValue(s[i + 9]) + 10 * DigitValue(s[i + 10]) + DigitValue(s[i + 11]),
                      UntilNewline(s[i + 13..])))
  }

  /** The captures when the pattern does not match: PHP's `null`s. */
  const NoMatch := StatusLine("", 0, "")

  /** Apply `withHeader` for each parsed field in turn. */
  function ApplyFields(r: Response, fields: seq<Header>): Response
    decreases |fields|
  {
    if fields == [] then r
    else
      var last := fields[|fields| - 1];
      ApplyFields(r, fields[..|fields| - 1]).WithHeader(last.name, last.values)
  }

  /** The values of the last field called `name`, if any. */
  function Latest(fields: seq<Header>, name: string): Option<seq<string>>
    decreases |fields|
  {
    if fields == [] then None
    else if SameName(fields[|fields| - 1].name, name) then Some(fields[|fields| - 1].values)
    else Latest(fields[..|fields| - 1], name)
  }

  /**
   * After applying the parsed fields, a field is present when some parsed
   * line or the prototype has it, and it holds the values of the LAST line of
   * that name (a later line replaces an earlier one); nothing but the header
   * list changes.
   */
  lemma {:induction false} ApplyFieldsReads(r: Response, fields: seq<Header>, name: string)
    ensures HasField(ApplyFields(r, fields).headers, name) <==> Latest(fields, name).Some? || HasField(r.headers, name)
    ensures Field(ApplyFields(r, fields).headers, name) == Latest(fields, name).GetOr(Field(r.headers, name))
    ensures ApplyFields(r, fields).(headers := r.headers) == r
    decreases |fields|
  {
    if fields != [] {
      var front := fields[..|fields| - 1];
      var last := fields[|fields| - 1];
      ApplyFieldsReads(r, front, name);
      WithField(ApplyFields(r, front).headers, last.name, last.values, name);
    }
  }

  /** The non-empty lines of the header section, or none when it is null. */
  function HeadSection(reply: Reply): seq<string> {
    SplitCrlf(reply.head.GetOr(""))
  }

  /** The prototype with the body appended and the captures of the first line as status, reason and version. */
  function ReplyStart(proto: Response, reply: Reply): Response {
    var lines := HeadSection(reply);
    var st := MatchStatusLine(if lines == [] then "" else lines[0]).GetOr(NoMatch);
    proto.(body := proto.body + reply.body).WithStatus(st.code, st.reason).WithProtocolVersion(st.version)
  }

  /**
   * The response `__invoke` builds from a reply: the body appended to the
   * prototype's, the status line's captures as status, reason and version, then
   * every later line applied as a header field.
   */
  function ParseReply(proto: Response, reply: Reply): (r: Response)
    ensures r.body == proto.body + reply.body
    ensures var lines := HeadSection(reply);
      MatchStatusLine(if lines == [] then "" else lines[0]).None? ==> r.status == 0 && r.reason == "" && r.version == ""
  {
    var lines := HeadSection(reply);
    ApplyFieldsReads(ReplyStart(proto, reply), ParseFields(if lines == [] then [] else lines[1..]), "");
    ApplyFields(ReplyStart(proto, reply), ParseFields(if lines == [] then [] else lines[1..]))
  }

  /** Applying one more parsed line is one more `withHeader`. */
  lemma ApplyFieldsNext(start: Response, lines: seq<string>, j: nat)
    requires j < |lines|
    ensures ApplyFields(start, ParseFields(lines[..j + 1]))
              == ApplyFields(start, ParseFields(lines[..j])).WithHeader(ParseField(lines[j]).name, ParseField(lines[j]).values)
  {
    var fields := ParseFields(lines[..j + 1]);
    var front := ParseFields(lines[..j]);
    assert |fields| == j + 1 && |front| == j;
    assert forall i :: 0 <= i < j ==> fields[i] == front[i];
    assert fields[..j] == front;
    assert fields[j] == ParseField(lines[j]);
  }

  /** The whole of `__invoke`: translate, execute over the base options, parse. */
  function Exchange(net: Network, base: Options, req: Request, proto: Response): (r: Result<Response, Error>)
    ensures r.Failure? <==> Perform(net, Merge(RequestOptions(req), base)).Failure?
    ensures r.Failure? ==> r.error.RuntimeException? && r.error == Perform(net, Merge(RequestOptions(req), base)).error
    ensures r.Success? ==> r.value == ParseReply(proto, Perform(net, Merge(RequestOptions(req), base)).value)
  {
    match Perform(net, Merge(RequestOptions(req), base))
    case Failure(e) => Failure(e)
    case Success(reply) => Success(ParseReply(proto, reply))
  }

  // ---------------------------------------------------------------- round trips

  /** A value that survives the comma split unchanged: no comma, no line break, no outer whitespace. */
  predicate PlainValue(v: string) {
    v != "" && ',' !in v && '\r' !in v && '\n' !in v && !IsSpace(v[0]) && !IsSpace(v[|v| - 1])
  }

  /**
   * A field as section 3.2 of RFC 7230 allows it on the wire, restricted to what
   * reads back unchanged: a name with no colon, no line break and no trailing
   * whitespace, and plain values.
   */
  predicate WellFormedField(h: Header) {
    && h.name != "" && ':' !in h.name && '\r' !in h.name && '\n' !in h.name
    && !IsSpace(h.name[|h.name| - 1])
    && forall i :: 0 <= i < |h.values| ==> PlainValue(h.values[i])
  }

  lemma FindCharAt(s: string, c: char, i: nat)
    requires i < |s| && s[i] == c && c !in s[..i]
    ensures FindChar(s, c) == Some(i)
  {
    assert c in s;
  }

  lemma TrimStartAfterSpace(t: string)
    requires t == "" || !IsSpace(t[0])
    ensures TrimStart(" " + t) == t
  {
    assert (" " + t)[1..] == t;
  }

  lemma {:induction false} JoinAvoids(vs: seq<string>, sep: string, c: char)
    requires c !in sep && forall i :: 0 <= i < |vs| ==> c !in vs[i]
    ensures c !in Join(vs, sep)
    decreases |vs|
  {
    if |vs| > 1 {
      JoinAvoids(vs[1..], sep, c);
    }
  }

  lemma JoinStart(vs: seq<string>, sep: string)
    requires |vs| > 0 && vs[0] != ""
    ensures Join(vs, sep) != "" && Join(vs, sep)[0] == vs[0][0]
  {
  }

  /** Values joined with `, ` split back into the same values (section 3.2.2 of RFC 7230). */
  lemma {:induction false} SplitValuesJoin(vs: seq<string>)
    requires forall i :: 0 <= i < |vs| ==> PlainValue(vs[i])
    ensures SplitValues(Join(vs, ", ")) == vs
    decreases |vs|
  {
    if |vs| == 0 {
    } else if |vs| == 1 {
      assert FindChar(vs[0], ',') == None;
    } else {
      var v := vs[0];
      var tail := Join(vs[1..], ", ");
      var s := v + ", " + tail;
      assert Join(vs, ", ") == s;
      assert s[..|v|] == v;
      FindCharAt(s, ',', |v|);
      assert TrimEnd(v) == v;
      JoinStart(vs[1..], ", ");
      assert s[|v| + 1..] == " " + tail;
      TrimStartAfterSpace(tail);
      SplitValuesJoin(vs[1..]);
    }
  }

  /** A field line splits at its colon into the name and the joined values. */
  lemma ColonPiecesOfLine(h: Header)
    requires WellFormedField(h)
    ensures ColonPieces(FieldLine(h)) == [h.name] + Keep(Join(h.values, ", "))
  {
    var values := Join(h.values, ", ");
    var line := FieldLine(h);
    assert line[..|h.name|] == h.name;
    FindCharAt(line, ':', |h.name|);
    assert TrimEnd(h.name) == h.name;
    assert line[|h.name| + 1..] == " " + values;
    if h.values != [] {
      JoinStart(h.values, ", ");
    }
    TrimStartAfterSpace(values);
  }

  /** A field rendered as a line parses back to the same field. */
  lemma FieldLineRoundTrip(h: Header)
    requires WellFormedField(h)
    ensures ParseField(FieldLine(h)) == h
  {
    ColonPiecesOfLine(h);
    var values := Join(h.values, ", ");
    ParseFieldOf(FieldLine(h), h.name, values);
    if h.values != [] {
      JoinStart(h.values, ", ");
      SplitValuesJoin(h.values);
    }
  }

  /** A line that splits at its colon into a name and the rest parses to that name and the rest's values. */
  lemma ParseFieldOf(line: string, name: string, rest: string)
    requires ColonPieces(line) == [name] + Keep(rest)
    ensures ParseField(line) == Header(name, if rest == "" then [] else SplitValues(rest))
  {
  }

  /** Lines each followed by a line break, as a header section carries them. */
  function Rendered(lines: seq<string>): string
    decreases |lines|
  {
    if lines == [] then "" else lines[0] + "\r\n" + Rendered(lines[1..])
  }

  /** The lines without the empty ones. */
  function NonEmpty(lines: seq<string>): seq<string>
    decreases |lines|
  {
    if lines == [] then [] else Keep(lines[0]) + NonEmpty(lines[1..])
  }

  lemma {:induction false} NonEmptyAppend(a: seq<string>, b: seq<string>)
    ensures NonEmpty(a + b) == NonEmpty(a) + NonEmpty(b)
    decreases |a|
  {
    if a == [] {
      assert a + b == b;
    } else {
      assert (a + b)[1..] == a[1..] + b;
      NonEmptyAppend(a[1..], b);
    }
  }

  lemma {:induction false} NonEmptyKeepsAll(lines: seq<string>)
    requires forall i :: 0 <= i < |lines| ==> lines[i] != ""
    ensures NonEmpty(lines) == lines
    decreases |lines|
  {
    if lines != [] {
      NonEmptyKeepsAll(lines[1..]);
    }
  }

  /** Splitting rendered lines at line breaks gives back the non-empty lines. */
  lemma {:induction false} SplitCrlfRendered(lines: seq<string>)
    requires forall i :: 0 <= i < |lines| ==> '\n' !in lines[i]
    ensures SplitCrlf(Rendered(lines)) == NonEmpty(lines)
    decreases |lines|
  {
    if lines != [] {
      var l := lines[0];
      var s := Rendered(lines);
      assert s == l + "\r\n" + Rendered(lines[1..]);
      assert CrlfAt(s, |l|);
      forall j | 0 <= j < |l|
        ensures !CrlfAt(s, j)
      {
        if j + 1 < |l| {
          assert s[j + 1] == l[j + 1];
        }
      }
      var r := FindCrlf(s);
      assert r == Some(|l|);
      assert s[..|l|] == l;
      assert s[|l| + 2..] == Rendered(lines[1..]);
      SplitCrlfRendered(lines[1..]);
    }
  }

  /** A status line `HTTP/d.d NNN reason` (section 3.1.2 of RFC 7230) whose reason has no line feed. */
  predicate WellFormedStatus(st: StatusLine) {
    && |st.version| == 3 && IsDigit(st.version[0]) && st.version[1] == '.' && IsDigit(st.version[2])
    && 0 <= st.code <= 999
    && '\n' !in st.reason
  }

  function Digit(d: int): char
    requires 0 <= d <= 9
  {
    ('0' as int + d) as char
  }

  function FormatStatusLine(st: StatusLine): string
    requires WellFormedStatus(st)
  {
    "HTTP/" + st.version + " " + [Digit(st.code / 100), Digit(st.code / 10 % 10), Digit(st.code % 10)] + " " + st.reason
  }

  /** A well-formed status line matches with exactly its version, code and reason as captures. */
  lemma StatusLineRoundTrip(st: StatusLine)
    requires WellFormedStatus(st)
    ensures MatchStatusLine(FormatStatusLine(st)) == Some(st)
  {
    var s := FormatStatusLine(st);
    assert s[0..5] == "HTTP/";
    assert StatusAt(s, 0);
    assert FindStatus(s, 0) == Some(0);
    assert s[5..8] == st.version;
    assert s[13..] == st.reason;
    assert FindChar(st.reason, '\n') == None;
    var c := st.code;
    assert DigitValue(s[9]) == c / 100 && DigitValue(s[10]) == c / 10 % 10 && DigitValue(s[11]) == c % 10;
    CodeDigits(c);
  }

  /** A code from 0 to 999 is its three decimal digits. */
  lemma CodeDigits(c: int)
    requires 0 <= c <= 999
    ensures 100 * (c / 100) + 10 * (c / 10 % 10) + c % 10 == c
  {
  }

  /** Well-formed fields render as lines that parse back to the same fields. */
  lemma FieldLinesRoundTrip(fields: seq<Header>)
    requires forall i :: 0 <= i < |fields| ==> WellFormedField(fields[i])
    ensures ParseFields(FieldLines(fields)) == fields
    ensures forall i :: 0 <= i < |fields| ==> '\n' !in FieldLines(fields)[i] && FieldLines(fields)[i] != ""
  {
    forall i | 0 <= i < |fields|
      ensures ParseFields(FieldLines(fields))[i] == fields[i]
      ensures '\n' !in FieldLine(fields[i]) && FieldLine(fields[i]) != ""
    {
      FieldLineRoundTrip(fields[i]);
      JoinAvoids(fields[i].values, ", ", '\n');
    }
  }

  /** The header section of a well-formed reply splits into its status line and field lines. */
  lemma HeadLines(first: string, fields: seq<Header>, terminated: bool)
    requires first != "" && '\n' !in first
    requires forall i :: 0 <= i < |fields| ==> WellFormedField(fields[i])
    ensures SplitCrlf(Rendered([first] + FieldLines(fields) + (if terminated then [""] else []))) == [first] + FieldLines(fields)
    ensures |Rendered([first] + FieldLines(fields) + (if terminated then [""] else []))| >= 2
  {
    var lines := [first] + FieldLines(fields);
    var all := lines + (if terminated then [""] else []);
    FieldLinesRoundTrip(fields);
    assert |Rendered(all)| >= 2;
    assert forall i :: 0 <= i < |all| ==> '\n' !in all[i];
    SplitCrlfRendered(all);
    NonEmptyAppend(lines, if terminated then [""] else []);
    NonEmptyKeepsAll(lines);
  }

  /**
   * A reply whose header section is a well-formed status line and well-formed
   * field lines (with or without the closing blank line), cut at the header
   * size, parses to the prototype with the body appended, the status line's
   * code, reason and version, and the fields applied in order.
   */
  lemma ReplyRoundTrip(proto: Response, st: StatusLine, fields: seq<Header>, terminated: bool, body: string)
    requires WellFormedStatus(st)
    requires forall i :: 0 <= i < |fields| ==> WellFormedField(fields[i])
    ensures var head := Rendered([FormatStatusLine(st)] + FieldLines(fields) + (if terminated then [""] else []));
      ParseReply(proto, SplitReply(head + body, |head|))
        == ApplyFields(proto.(body := proto.body + body).WithStatus(st.code, st.reason).WithProtocolVersion(st.version), fields)
  {
    var first := FormatStatusLine(st);
    var lines := [first] + FieldLines(fields);
    var head := Rendered(lines + (if terminated then [""] else []));
    CutAtHead(head, body);
    HeadLines(first, fields, terminated);
    StatusLineRoundTrip(st);
    FieldLinesRoundTrip(fields);
    assert lines[0] == first && lines[1..] == FieldLines(fields);
  }

  /** A header section of at least two characters is never falsy, so the cut keeps it. */
  lemma CutAtHead(head: string, body: string)
    requires |head| >= 2
    ensures SplitReply(head + body, |head|) == Reply(body, Some(head))
  {
    var raw := head + body;
    assert raw[..|head|] == head && raw[|head|..] == body;
  }

  /** The header section of the adapter's own test. */
  function TestHeaders(): string {
    "HTTP/1.1 200 OK" + "\r\n" + "Content-Type" + ": " + "application/json; charset=utf-8" + "\r\n"
  }

  /**
   * The reply of the adapter's own test: status 200, reason `OK`, version 1.1,
   * the JSON body, and its one content type field.
   */
  lemma TestReply(proto: Response)
    ensures var r := ParseReply(proto, SplitReply(TestHeaders() + "{}", |TestHeaders()|));
      && r.status == 200 && r.reason == "OK" && r.version == "1.1"
      && r.body == proto.body + "{}"
      && r.HeaderLine("Content-Type") == "application/json; charset=utf-8"
  {
    var st := StatusLine("1.1", 200, "OK");
    var field := Header("Content-Type", ["application/json; charset=utf-8"]);
    var head := TestHeaders();
    TestHead(st, field);
    ReplyRoundTrip(proto, st, [field], false, "{}");
    var start := proto.(body := proto.body + "{}").WithStatus(200, "OK").WithProtocolVersion("1.1");
    var r := ParseReply(proto, SplitReply(head + "{}", |head|));
    assert r == ApplyFields(start, [field]);
    ApplyFieldsReads(start, [field], "Content-Type");
    assert [field][..0] == [];
  }

  /** The test's header section is the rendering of its status line and its one field. */
  lemma TestHead(st: StatusLine, field: Header)
    requires st == StatusLine("1.1", 200, "OK")
    requires field == Header("Content-Type", ["application/json; charset=utf-8"])
    ensures WellFormedStatus(st) && WellFormedField(field)
    ensures TestHeaders() == Rendered([FormatStatusLine(st)] + FieldLines([field]) + [])
  {
    TestLines(st, field);
    var status := FormatStatusLine(st);
    var line := FieldLine(field);
    var lines := [status] + FieldLines([field]);
    assert FieldLines([field]) == [line];
    assert Rendered([line]) == line + "\r\n";
    assert Rendered(lines) == status + "\r\n" + Rendered([line]);
    assert lines + [] == lines;
  }

  lemma TestLines(st: StatusLine, field: Header)
    requires st == StatusLine("1.1", 200, "OK")
    requires field == Header("Content-Type", ["application/json; charset=utf-8"])
    ensures WellFormedStatus(st) && WellFormedField(field)
    ensures FormatStatusLine(st) == "HTTP/1.1 200 OK"
    ensures FieldLine(field) == "Content-Type" + ": " + "application/json; charset=utf-8"
  {
    TestValue(field.values[0]);
    TestName(field.name);
    TestStatusText(st);
    TestFieldText(field);
  }

  lemma TestStatusText(st: StatusLine)
    requires st == StatusLine("1.1", 200, "OK")
    ensures WellFormedStatus(st) && FormatStatusLine(st) == "HTTP/1.1 200 OK"
  {
    assert [Digit(2), Digit(0), Digit(0)] == "200";
  }

  lemma TestFieldText(field: Header)
    requires field == Header("Content-Type", ["application/json; charset=utf-8"])
    ensures FieldLine(field) == "Content-Type" + ": " + "application/json; charset=utf-8"
  {
    assert Join(field.values, ", ") == "application/json; charset=utf-8";
  }

  lemma TestValue(v: string)
    requires v == "application/json; charset=utf-8"
    ensures PlainValue(v)
  {
    assert forall i :: 0 <= i < |v| ==> v[i] != ',' && v[i] != '\r' && v[i] != '\n';
  }

  lemma TestName(name: string)
    requires name == "Content-Type"
    ensures name != "" && ':' !in name && '\r' !in name && '\n' !in name && !IsSpace(name[|name| - 1])
  {
    assert forall i :: 0 <= i < |name| ==> name[i] != ':' && name[i] != '\r' && name[i] != '\n';
  }

  /** The adapter: its base options, and the sessions it drives. */
  class CurlAdapter {
    const options: Options

    /** The base options from the server's user agent, the engine version and what is supplied. */
    constructor (serverUserAgent: Option<string>, phpVersion: string, given: Options)
      ensures options == BaseOptions(DefaultUserAgent(serverUserAgent, phpVersion), given)
    {
      options := BaseOptions(DefaultUserAgent(serverUserAgent, phpVersion), given);
    }

    /**
     * `execute`: a new session, opened, given the per-request options over the
     * base ones, executed; closed on every path, failure or not.
     */
    method Execute(network: Network, perRequest: Options) returns (r: Result<Reply, Error>, session: Session)
      ensures fresh(session) && session.network == network && session.phase == Closed
      ensures r == Perform(network, Merge(perRequest, options))
    {
      session := new Session(network);
      var ready := session.Open();
      if !ready {
        session.Close();
        return Failure(RuntimeException("Cannot initialize a cURL session", 0)), session;
      }
      session.SetOptions(Merge(perRequest, options));
      var raw := session.Execute();
      if raw.None? {
        var message := session.ErrorMessage();
        var code := session.ErrorCode();
        session.Close();
        return Failure(RuntimeException(message, code)), session;
      }
      var headerSize := session.HeaderSize();
      r := Success(SplitReply(raw.value, headerSize));
      session.Close();
    }

    /** `__invoke`: build the per-request options, execute, and build the response from the reply. */
    method Invoke(network: Network, req: Request, proto: Response) returns (r: Result<Response, Error>)
      ensures r == Exchange(network, options, req, proto)
    {
      var perRequest := Translate(req);
      var reply, _ := Execute(network, perRequest);
      if reply.Failure? {
        return Failure(reply.error);
      }
      var response := Respond(proto, reply.value);
      r := Success(response);
    }

    /**
     * The first half of `__invoke`: one line per request field, the URL, the
     * method's options, and the suppression lines for `Expect` and `Content-Type`.
     */
    method Translate(req: Request) returns (perRequest: Options)
      ensures perRequest == RequestOptions(req)
    {
      var lines: seq<string> := [];
      var i := 0;
      while i < |req.headers|
        invariant 0 <= i <= |req.headers|
        invariant lines == FieldLines(req.headers[..i])
      {
        lines := lines + [FieldLine(req.headers[i])];
        i := i + 1;
      }
      assert req.headers[..i] == req.headers;
      perRequest := map[OptHttpHeader := Lines(lines)];
      perRequest := perRequest[OptUrl := Text(req.uri)];
      var request := req;
      if req.verb == "HEAD" {
        perRequest := perRequest[OptNoBody := Flag(true)];
      } else if req.verb == "GET" {
        perRequest := perRequest[OptHttpGet := Flag(true)];
      } else if req.verb == "POST" {
        perRequest := perRequest[OptPost := Flag(true)][OptPostFields := Text(req.body)];
        request := request.WithoutHeader("Content-Length");
        request := request.WithoutHeader("Transfer-Encoding");
      } else if req.verb == "PUT" {
        perRequest := perRequest[OptPut := Flag(true)][OptInFile := TempFile(req.body)][OptInFileSize := Int(|req.body|)];
        request := request.WithoutHeader("Content-Length");
      } else {
        perRequest := perRequest[OptCustomRequest := Text(req.verb)];
      }
      assert request == Checked(req);
      assert perRequest == WithLines(lines, req);
      if !request.HasHeader("Expect") {
        Reline(lines, lines + ["Expect:"], req);
        lines := lines + ["Expect:"];
        perRequest := perRequest[OptHttpHeader := Lines(lines)];
      }
      if !request.HasHeader("Content-Type") {
        Reline(lines, lines + ["Content-Type:"], req);
        lines := lines + ["Content-Type:"];
        perRequest := perRequest[OptHttpHeader := Lines(lines)];
      }
      assert lines == FieldLines(req.headers) + Suppressions(Checked(req));
    }

    /**
     * The second half of `__invoke`: the body appended, the status line's
     * captures set, and each later header line applied in turn.
     */
    method Respond(proto: Response, reply: Reply) returns (response: Response)
      ensures response == ParseReply(proto, reply)
    {
      var head := SplitCrlf(reply.head.GetOr(""));
      var first := if head == [] then "" else head[0];
      var rest := if head == [] then [] else head[1..];
      var st := MatchStatusLine(first).GetOr(NoMatch);
      response := proto.(body := proto.body + reply.body);
      response := response.WithStatus(st.code, st.reason);
      response := response.WithProtocolVersion(st.version);
      assert response == ReplyStart(proto, reply);
      var j := 0;
      while j < |rest|
        invariant 0 <= j <= |rest|
        invariant response == ApplyFields(ReplyStart(proto, reply), ParseFields(rest[..j]))
      {
        var field := ParseField(rest[j]);
        ApplyFieldsNext(ReplyStart(proto, reply), rest, j);
        response := response.WithHeader(field.name, field.values);
        j := j + 1;
      }
      assert rest[..j] == rest;
    }
  }
}
