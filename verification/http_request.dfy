/**
 * HttpRequest (libs/http/http.php:60-254): static accessors that derive
 * request metadata (client address, protocol, host, port, URI, path, query
 * string, method, full URL, site root) from the request environment, each
 * with a fixed fallback when the script runs without a client (CLI mode).
 *
 * After libs/http/http.php:256 replaces `$_SERVER` by an HttpRequest object,
 * every `$_SERVER['K']` in these accessors is an `offsetGet` and every
 * `isset($_SERVER['K'])` an `offsetExists`, so reads go through
 * RequestArray.Get and RequestArray.Isset: HTTP_HOST and HTTPS, both
 * `HTTP`-prefixed, come back as TaintedString objects.
 */
module HttpRequest {
  import opened PhpValues
  import opened RequestArray

  /**
   * Everything the accessors read. `server` is the environment behind
   * `$_SERVER`; `sapi` is what `php_sapi_name()` reports; `builtQuery` is
   * `http_build_query($_GET)`; `show` is the string a TaintedString converts
   * to when it is concatenated or compared with a string.
   */
  datatype Context = Context(server: Env, sapi: string, builtQuery: string, show: string -> string)

  /** `isCLI()`: the SAPI is "cli", or no client address is set. */
  predicate IsCLI(c: Context)
    ensures c.sapi == "cli" ==> IsCLI(c)
    ensures !IsCLI(c) ==> "REMOTE_ADDR" in c.server && c.server["REMOTE_ADDR"].Some?
    ensures c.sapi != "cli" && Isset(c.server, "REMOTE_ADDR") ==> !IsCLI(c)
  {
    c.sapi == "cli" || !Isset(c.server, "REMOTE_ADDR")
  }

  /** `IP()`: the client address, or the loopback address in CLI mode. */
  function IP(c: Context): (r: Value)
    ensures r.Plain?
    ensures IsCLI(c) ==> r.s == "127.0.0.1"
    ensures !IsCLI(c) ==> r.s == c.server["REMOTE_ADDR"].value
  {
    KnownKeys();
    if IsCLI(c) then Plain("127.0.0.1") else Get(c.server, "REMOTE_ADDR")
  }

  /**
   * `URL($QueryString)`: protocol, "://", server name, the (always NULL)
   * PortReadable and the request URI, then "?" and the query string when the
   * flag is set and the query string is truthy. NULL in CLI mode.
   */
  function URL(c: Context, withQuery: bool := true): (r: Value)
    ensures r.Null? <==> IsCLI(c)
    ensures !r.Tainted?
  {
    if IsCLI(c) then Null
    else
      var base := Text(Protocol(c), c.show) + "://" + Text(ServerName(c), c.show)
                  + Text(PortReadable(c), c.show) + Text(RequestURI(c), c.show);
      if withQuery && Truthy(QueryString(c)) then Plain(base + "?" + Text(QueryString(c), c.show))
      else Plain(base)
  }

  /** `Host()`: the client-supplied HTTP_HOST (tainted), "" when unset, "localhost" in CLI mode. */
  function Host(c: Context): (r: Value)
    ensures !r.Null?
    ensures IsCLI(c) ==> r == Plain("localhost")
    ensures r.Tainted? <==> !IsCLI(c) && Isset(c.server, "HTTP_HOST")
    ensures r.Tainted? ==> r.s == c.server["HTTP_HOST"].value
    ensures !IsCLI(c) && !Isset(c.server, "HTTP_HOST") ==> r == Plain("")
  {
    if IsCLI(c) then Plain("localhost")
    else if Isset(c.server, "HTTP_HOST") then Get(c.server, "HTTP_HOST")
    else Plain("")
  }

  /** `ServerName()`: SERVER_NAME or "", in every mode. */
  function ServerName(c: Context): (r: Value)
    ensures r.Plain?
    ensures Isset(c.server, "SERVER_NAME") ==> r.s == c.server["SERVER_NAME"].value
    ensures !Isset(c.server, "SERVER_NAME") ==> r.s == ""
  {
    KnownKeys();
    if Isset(c.server, "SERVER_NAME") then Get(c.server, "SERVER_NAME") else Plain("")
  }

  /**
   * `Protocol()`: "cli" in CLI mode; otherwise "http" when HTTPS is unset or
   * (through the TaintedString conversion) reads "off" or "", else "https".
   */
  function Protocol(c: Context): (r: Value)
    ensures r.Plain? && r.s in {"cli", "http", "https"}
    ensures r.s == "cli" <==> IsCLI(c)
  {
    if IsCLI(c) then Plain("cli")
    else
      var x := if Isset(c.server, "HTTPS") then Get(c.server, "HTTPS") else Plain("");
      if Text(x, c.show) == "off" || Text(x, c.show) == "" then Plain("http") else Plain("https")
  }

  /** `isHTTPS()`: only a request with a client and a set HTTPS entry can be one. */
  predicate IsHTTPS(c: Context)
    ensures IsHTTPS(c) ==> !IsCLI(c) && Isset(c.server, "HTTPS")
  {
    Protocol(c) == Plain("https")
  }

  /** `isHTTP()`: every request with a client and no HTTPS entry is one. */
  predicate IsHTTP(c: Context)
    ensures IsHTTP(c) ==> !IsCLI(c)
    ensures !IsCLI(c) && !Isset(c.server, "HTTPS") ==> IsHTTP(c)
  {
    Protocol(c) == Plain("http")
  }

  /** `Port()`: SERVER_PORT or "", NULL in CLI mode. */
  function Port(c: Context): (r: Value)
    ensures r.Null? <==> IsCLI(c)
    ensures !r.Tainted?
    ensures !IsCLI(c) && Isset(c.server, "SERVER_PORT") ==> r.s == c.server["SERVER_PORT"].value
    ensures !IsCLI(c) && !Isset(c.server, "SERVER_PORT") ==> r == Plain("")
  {
    KnownKeys();
    if IsCLI(c) then Null
    else if Isset(c.server, "SERVER_PORT") then Get(c.server, "SERVER_PORT")
    else Plain("")
  }

  /**
   * The value the local `$port` of `PortReadable()` ends with: "" for port 80
   * over http and for port 443 over https, ":" followed by the port
   * otherwise. `strtolower` is left out because Protocol is already lower
   * case.
   */
  function PortSuffix(c: Context): (r: string)
    ensures IsCLI(c) ==> r == ":"
    ensures r == "" || r == ":" + Text(Port(c), c.show)
    ensures r == "" <==>
              (Text(Port(c), c.show) == "80" && IsHTTP(c)) || (Text(Port(c), c.show) == "443" && IsHTTPS(c))
  {
    var port := Text(Port(c), c.show);
    if port == "80" && Text(Protocol(c), c.show) == "http" then ""
    else if port == "443" && Text(Protocol(c), c.show) == "https" then ""
    else ":" + port
  }

  /**
   * `PortReadable()` computes PortSuffix into a local and has no `return`
   * statement, so what it returns is NULL.
   */
  function PortReadable(c: Context): (r: Value)
    ensures r.Null?
  {
    var _ := PortSuffix(c);
    Null
  }

  /** `RequestURI()`: REQUEST_URI or "", NULL in CLI mode. */
  function RequestURI(c: Context): (r: Value)
    ensures r.Null? <==> IsCLI(c)
    ensures !r.Tainted?
    ensures !IsCLI(c) && Isset(c.server, "REQUEST_URI") ==> r.s == c.server["REQUEST_URI"].value
  {
    KnownKeys();
    if IsCLI(c) then Null
    else if Isset(c.server, "REQUEST_URI") then Get(c.server, "REQUEST_URI")
    else Plain("")
  }

  /**
   * `QueryString()`: in CLI mode the serialised `$_GET`; otherwise
   * REDIRECT_QUERY_STRING without its first `&`-separated segment when that
   * key is set, else QUERY_STRING or "". Never NULL, never tainted.
   */
  function QueryString(c: Context): (r: Value)
    ensures r.Plain?
    ensures IsCLI(c) ==> r.s == c.builtQuery
    ensures !IsCLI(c) && Isset(c.server, "REDIRECT_QUERY_STRING") ==>
              r.s == DropFirstSegment(c.server["REDIRECT_QUERY_STRING"].value)
    ensures !IsCLI(c) && !Isset(c.server, "REDIRECT_QUERY_STRING") && Isset(c.server, "QUERY_STRING") ==>
              r.s == c.server["QUERY_STRING"].value
    ensures !IsCLI(c) && !Isset(c.server, "REDIRECT_QUERY_STRING") && !Isset(c.server, "QUERY_STRING") ==>
              r == Plain("")
  {
    KnownKeys();
    if IsCLI(c) then Plain(c.builtQuery)
    else if Isset(c.server, "REDIRECT_QUERY_STRING") then
      Plain(DropFirstSegment(Get(c.server, "REDIRECT_QUERY_STRING").s))
    else if Isset(c.server, "QUERY_STRING") then Get(c.server, "QUERY_STRING")
    else Plain("")
  }

  /** `Method()`: REQUEST_METHOD read without an `isset` guard, so NULL when unset; "GET" in CLI mode. */
  function Method(c: Context): (r: Value)
    ensures IsCLI(c) ==> r == Plain("GET")
    ensures !r.Tainted?
    ensures r.Null? <==> !IsCLI(c) && !Isset(c.server, "REQUEST_METHOD")
    ensures !IsCLI(c) && Isset(c.server, "REQUEST_METHOD") ==> r == Plain(c.server["REQUEST_METHOD"].value)
  {
    KnownKeys();
    if IsCLI(c) then Plain("GET") else Get(c.server, "REQUEST_METHOD")
  }

  /**
   * `Path()`: the request URI up to its first "?", read without an `isset`
   * guard, so NULL when REQUEST_URI is unset (strpos of NULL finds nothing
   * and the NULL is returned as is). NULL in CLI mode.
   */
  function Path(c: Context): (r: Value)
    ensures !r.Tainted?
    ensures r.Null? <==> IsCLI(c) || !Isset(c.server, "REQUEST_URI")
    ensures r.Plain? ==> r.s <= c.server["REQUEST_URI"].value && '?' !in r.s
    ensures r.Plain? ==> (r.s == c.server["REQUEST_URI"].value <==> '?' !in c.server["REQUEST_URI"].value)
  {
    KnownKeys();
    if IsCLI(c) then Null
    else
      var uri := Get(c.server, "REQUEST_URI");
      if uri.Plain? then Plain(BeforeFirst(uri.s, '?')) else uri
  }

  /** `Root()`: protocol, "://", host, the (always NULL) PortReadable and the path. NULL in CLI mode. */
  function Root(c: Context): (r: Value)
    ensures r.Null? <==> IsCLI(c)
    ensures !r.Tainted?
  {
    if IsCLI(c) then Null
    else Plain(Text(Protocol(c), c.show) + "://" + Text(Host(c), c.show)
               + Text(PortReadable(c), c.show) + Text(Path(c), c.show))
  }

  /** `ServerIP()`: SERVER_ADDR, NULL (not "") when unset, the loopback address in CLI mode. */
  function ServerIP(c: Context): (r: Value)
    ensures IsCLI(c) ==> r == Plain("127.0.0.1")
    ensures !r.Tainted?
    ensures r.Null? <==> !IsCLI(c) && !Isset(c.server, "SERVER_ADDR")
    ensures !IsCLI(c) && Isset(c.server, "SERVER_ADDR") ==> r.s == c.server["SERVER_ADDR"].value
  {
    KnownKeys();
    if IsCLI(c) then Plain("127.0.0.1")
    else if Isset(c.server, "SERVER_ADDR") then Get(c.server, "SERVER_ADDR")
    else Null
  }
}
