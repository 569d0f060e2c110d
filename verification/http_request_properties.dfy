/**
 * Properties of the HttpRequest accessors that relate several of them: the
 * CLI fallback table, the protocol rule, the shape of URL and Root, how Path
 * sits inside the request URI, the redirect query-string rule, and worked
 * examples of the behaviour as written.
 */
module HttpRequestProperties {
  import opened PhpValues
  import opened RequestArray
  import opened HttpRequest

  /** In CLI mode every gated accessor gives its fixed fallback. */
  lemma CliFallbacks(c: Context, withQuery: bool)
    requires IsCLI(c)
    ensures IP(c) == Plain("127.0.0.1") && ServerIP(c) == Plain("127.0.0.1")
    ensures Host(c) == Plain("localhost") && Protocol(c) == Plain("cli") && Method(c) == Plain("GET")
    ensures URL(c, withQuery) == Null && Port(c) == Null && RequestURI(c) == Null
    ensures Path(c) == Null && Root(c) == Null && PortReadable(c) == Null
    ensures QueryString(c) == Plain(c.builtQuery)
    ensures !IsHTTP(c) && !IsHTTPS(c)
  {
  }

  /**
   * isCLI holds exactly when the SAPI is "cli" or no client address is set:
   * Protocol and Host report the mode, dropping REMOTE_ADDR or a "cli" SAPI
   * forces it, and a web request with a client address is never in it.
   */
  lemma CliDetection(c: Context)
    ensures IsCLI(c) <==> Protocol(c) == Plain("cli")
    ensures IsCLI(c) <==> Host(c) == Plain("localhost")
    ensures IsCLI(c.(server := c.server - {"REMOTE_ADDR"}))
    ensures IsCLI(c.(sapi := "cli"))
    ensures c.sapi != "cli" && Isset(c.server, "REMOTE_ADDR") ==>
              !IsCLI(c) && IP(c) == Plain(c.server["REMOTE_ADDR"].value)
  {
  }

  /** ServerName is not gated by the mode: neither the SAPI nor REMOTE_ADDR changes it. */
  lemma ServerNameNotGated(c: Context, sapi: string, clientAddress: Option<string>)
    ensures ServerName(c.(sapi := sapi)) == ServerName(c)
    ensures ServerName(c.(server := c.server["REMOTE_ADDR" := clientAddress])) == ServerName(c)
  {
    var d := c.server["REMOTE_ADDR" := clientAddress];
    assert Isset(d, "SERVER_NAME") == Isset(c.server, "SERVER_NAME");
  }

  /**
   * Outside CLI mode the protocol is "http" exactly when HTTPS is unset or,
   * read through the TaintedString conversion (HTTPS is an `HTTP`-prefixed
   * key), is "off" or ""; otherwise it is "https".
   */
  lemma ProtocolRule(c: Context)
    requires !IsCLI(c)
    ensures IsHTTP(c) <==>
              !Isset(c.server, "HTTPS") || c.show(c.server["HTTPS"].value) in {"off", ""}
    ensures IsHTTPS(c) <==> !IsHTTP(c)
  {
    KnownKeys();
  }

  /** When the TaintedString conversion yields the wrapped string, the rule reads on the raw HTTPS value. */
  lemma ProtocolRuleOnRawValue(c: Context)
    requires !IsCLI(c)
    requires forall s :: c.show(s) == s
    ensures IsHTTPS(c) <==> Isset(c.server, "HTTPS") && c.server["HTTPS"].value !in {"off", ""}
  {
    ProtocolRule(c);
  }

  /** isHTTP and isHTTPS are never both true, and both are false in CLI mode. */
  lemma HttpAndHttpsExclusive(c: Context)
    ensures !(IsHTTP(c) && IsHTTPS(c))
    ensures IsCLI(c) ==> !IsHTTP(c) && !IsHTTPS(c)
    ensures !IsCLI(c) ==> IsHTTP(c) || IsHTTPS(c)
  {
  }

  /**
   * Outside CLI mode URL is protocol, "://", server name and request URI,
   * with no port text (PortReadable is NULL), followed by "?" and the query
   * string only when asked for and the query string is neither "" nor "0".
   */
  lemma URLShape(c: Context, withQuery: bool)
    requires !IsCLI(c)
    ensures URL(c, withQuery) ==
              Plain(Protocol(c).s + "://" + ServerName(c).s + RequestURI(c).s
                    + if withQuery && QueryString(c).s != "" && QueryString(c).s != "0"
                      then "?" + QueryString(c).s else "")
  {
  }

  /**
   * Outside CLI mode Path is the request URI up to its first "?": what
   * follows it in REQUEST_URI is empty or starts with "?". When REQUEST_URI
   * is unset, RequestURI is "" but Path is NULL.
   */
  lemma PathWithinRequestURI(c: Context)
    requires !IsCLI(c)
    ensures Isset(c.server, "REQUEST_URI") ==>
              var uri, path := RequestURI(c).s, Path(c).s;
              Path(c).Plain? && path == uri[..|path|] && (|path| < |uri| ==> uri[|path|] == '?')
    ensures !Isset(c.server, "REQUEST_URI") ==> Path(c) == Null && RequestURI(c) == Plain("")
  {
    if Isset(c.server, "REQUEST_URI") {
      KnownKeys();
      var uri := c.server["REQUEST_URI"].value;
      assert Path(c) == Plain(BeforeFirst(uri, '?'));
    }
  }

  /**
   * Outside CLI mode Root is protocol, "://", host and path, with no port
   * text; it carries a "?" only if the client-supplied host does.
   */
  lemma {:induction false} RootShape(c: Context)
    requires !IsCLI(c)
    ensures Root(c) == Plain(Protocol(c).s + "://" + Text(Host(c), c.show) + Text(Path(c), c.show))
    ensures '?' in Root(c).s ==> '?' in Text(Host(c), c.show)
  {
    var proto, host, path := Protocol(c).s, Text(Host(c), c.show), Text(Path(c), c.show);
    assert '?' !in proto;
    assert '?' !in path;
    assert '?' !in "://";
    assert Root(c).s == proto + "://" + host + path;
  }

  /**
   * Outside CLI mode, with REDIRECT_QUERY_STRING set to `segment&rest` where
   * the first segment holds no "&", the query string is `rest`.
   */
  lemma QueryStringAfterRedirect(c: Context, segment: string, rest: string)
    requires !IsCLI(c)
    requires "REDIRECT_QUERY_STRING" in c.server
    requires c.server["REDIRECT_QUERY_STRING"] == Some(segment + "&" + rest)
    requires '&' !in segment
    ensures QueryString(c) == Plain(rest)
  {
    DropFirstSegmentOf(segment, rest);
  }

  /** "script.php&x=1&y=2" as REDIRECT_QUERY_STRING gives the query string "x=1&y=2". */
  lemma QueryStringRedirectExample(c: Context)
    requires !IsCLI(c)
    requires "REDIRECT_QUERY_STRING" in c.server
    requires c.server["REDIRECT_QUERY_STRING"] == Some("script.php&x=1&y=2")
    ensures QueryString(c) == Plain("x=1&y=2")
  {
    assert "script.php&x=1&y=2" == "script.php" + "&" + "x=1&y=2";
    QueryStringAfterRedirect(c, "script.php", "x=1&y=2");
  }

  /** The environment of a request for https://example.com/a/b?x=1 on port 443. */
  predicate SecureRequest(c: Context)
  {
    && c.sapi != "cli"
    && "REMOTE_ADDR" in c.server && c.server["REMOTE_ADDR"] == Some("10.0.0.5")
    && "HTTP_HOST" in c.server && c.server["HTTP_HOST"] == Some("example.com")
    && "SERVER_NAME" in c.server && c.server["SERVER_NAME"] == Some("example.com")
    && "SERVER_PORT" in c.server && c.server["SERVER_PORT"] == Some("443")
    && "HTTPS" in c.server && c.server["HTTPS"] == Some("on")
    && "REQUEST_URI" in c.server && c.server["REQUEST_URI"] == Some("/a/b?x=1")
    && "QUERY_STRING" in c.server && c.server["QUERY_STRING"] == Some("x=1")
    && "REDIRECT_QUERY_STRING" !in c.server
    && c.show("on") == "on"
  }

  /** In that request the client address comes back plain, the host tainted, the protocol https. */
  lemma SecureRequestFields(c: Context)
    requires SecureRequest(c)
    ensures IP(c) == Plain("10.0.0.5")
    ensures Host(c) == Tainted("example.com")
    ensures Protocol(c) == Plain("https")
    ensures ServerName(c) == Plain("example.com")
    ensures RequestURI(c) == Plain("/a/b?x=1")
    ensures QueryString(c) == Plain("x=1")
    ensures PortSuffix(c) == ""
  {
    KnownKeys();
  }

  /** In that request the path is the URI without its query. */
  lemma SecureRequestPath(c: Context)
    requires SecureRequest(c)
    ensures Path(c) == Plain("/a/b")
  {
    KnownKeys();
    SecureRequestPathText();
    assert Path(c) == Plain(BeforeFirst("/a/b?x=1", '?'));
  }

  /** The cut of SecureRequestPath, spelled out. */
  lemma SecureRequestPathText()
    ensures BeforeFirst("/a/b?x=1", '?') == "/a/b"
  {
    var uri := "/a/b?x=1";
    assert uri == "/a/b" + "?x=1";
    assert uri[..4] == "/a/b";
    assert '?' !in "/a/b" by {
      assert forall i | 0 <= i < 4 :: "/a/b"[i] != '?';
    }
    StrPosFirst(uri, '?', 4);
  }

  /** In that request the URL repeats the query, because REQUEST_URI already carries it. */
  lemma SecureRequestURL(c: Context)
    requires SecureRequest(c)
    ensures URL(c, true) == Plain("https://example.com/a/b?x=1?x=1")
    ensures URL(c, false) == Plain("https://example.com/a/b?x=1")
  {
    SecureRequestFields(c);
    SecureRequestText();
    URLShape(c, true);
    URLShape(c, false);
  }

  /** The concatenations of SecureRequestURL, spelled out. */
  lemma SecureRequestText()
    ensures "https" + "://" + "example.com" + "/a/b?x=1" + ("?" + "x=1") == "https://example.com/a/b?x=1?x=1"
    ensures "https" + "://" + "example.com" + "/a/b?x=1" == "https://example.com/a/b?x=1"
    ensures "x=1" != "" && "x=1" != "0"
  {
  }

  /** The environment of a plain-http request for /index.php on port 8080, without a Host header. */
  predicate PlainRequestOn8080(c: Context)
  {
    && c.sapi != "cli"
    && "REMOTE_ADDR" in c.server && c.server["REMOTE_ADDR"] == Some("10.0.0.5")
    && "SERVER_NAME" in c.server && c.server["SERVER_NAME"] == Some("example.com")
    && "SERVER_PORT" in c.server && c.server["SERVER_PORT"] == Some("8080")
    && "REQUEST_URI" in c.server && c.server["REQUEST_URI"] == Some("/index.php")
    && "HTTP_HOST" !in c.server && "HTTPS" !in c.server
    && "REDIRECT_QUERY_STRING" !in c.server && "QUERY_STRING" !in c.server
  }

  /** There the port suffix PortReadable computes is ":8080", and what it returns is NULL. */
  lemma PortSuffixIsDiscarded(c: Context)
    requires PlainRequestOn8080(c)
    ensures IsHTTP(c)
    ensures PortSuffix(c) == ":8080"
    ensures PortReadable(c) == Null
  {
    KnownKeys();
    assert "8080" != "80";
  }

  /** So neither URL nor Root carries the port. */
  lemma NonDefaultPortIsDropped(c: Context)
    requires PlainRequestOn8080(c)
    ensures URL(c, true) == Plain("http://example.com/index.php")
    ensures Root(c) == Plain("http:///index.php")
  {
    KnownKeys();
    assert !IsCLI(c);
    assert Protocol(c) == Plain("http");
    assert ServerName(c) == Plain("example.com");
    assert RequestURI(c) == Plain("/index.php");
    assert QueryString(c) == Plain("");
    assert Host(c) == Plain("");
    NonDefaultPortText();
    assert Path(c) == Plain("/index.php");
    URLShape(c, true);
    RootShape(c);
  }

  /** The concatenations of NonDefaultPortIsDropped, spelled out. */
  lemma NonDefaultPortText()
    ensures '?' !in "/index.php"
    ensures "http" + "://" + "example.com" + "/index.php" + "" == "http://example.com/index.php"
    ensures "http" + "://" + "" + "/index.php" == "http:///index.php"
  {
  }

  /** A query string of "0" is falsy in PHP, so URL leaves the "?" suffix off. */
  lemma ZeroQueryStringIsDropped(c: Context)
    requires !IsCLI(c)
    requires !Isset(c.server, "REDIRECT_QUERY_STRING")
    requires "QUERY_STRING" in c.server && c.server["QUERY_STRING"] == Some("0")
    ensures URL(c, true) == URL(c, false)
  {
  }

  /**
   * Without a client: the loopback address, the "cli" protocol and no URL,
   * whatever the rest of the environment holds.
   */
  lemma CliRequestExample(c: Context)
    requires "REMOTE_ADDR" !in c.server
    ensures IP(c) == Plain("127.0.0.1")
    ensures Protocol(c) == Plain("cli")
    ensures URL(c, true) == Null
  {
  }
}
