# phpsec request environment: a verified Dafny model

This project models `libs/http/http.php` of phpsec. The file has two parts:

- **HttpRequestArray** is an array-access wrapper over the request environment (`$_SERVER`). Every read of a set key that starts with `HTTP` comes back wrapped as a `TaintedString`, which marks it as client-supplied. Reads of any other set key come back as plain strings, and a key that is unset or holds NULL reads as NULL. Writes, existence tests and removals apply no taint logic.
- **HttpRequest** provides static accessors that derive request metadata from the environment: client IP, server IP, host, server name, protocol, port, request URI, path, query string, method, full URL and site root. CLI mode holds when the SAPI is `cli` or no client address is set. In CLI mode most accessors return a fixed value. Two do not: `ServerName` ignores the mode, and `QueryString` returns the serialised `$_GET`.

## Layout

- `php_values.dfy`, module `PhpValues`: the PHP semantics the file relies on.
  - A read yields one of three kinds of value: `Null`, `Plain(s)` or `Tainted(s)` for a TaintedString.
  - String conversion for `.` concatenation (`Text`) and truthiness (`Truthy`).
  - The built-ins `strpos`, `substr` and `explode`, as far as the file uses them (`StrPos`, `Substr`, `BeforeFirst`, `DropFirstSegment`).
- `request_array.dfy`, module `RequestArray`: the classification rule `IsHeaderKey`, `isset` as `Isset`, and the read rule `Get`.
  - Class `HttpRequestArray` holds the field `data`. `OffsetSet` and `OffsetUnset` update it in place. `OffsetExists` and `OffsetGet` read it.
  - The environment maps keys to `Option<string>`, so a key can be present with the value NULL. PHP's `isset` treats such a key as unset.
- `http_request.dfy`, module `HttpRequest`: the static accessors, as functions of a `Context`. The context has four fields:
  - `server`: the environment;
  - `sapi`: what `php_sapi_name()` reports;
  - `builtQuery`: what `http_build_query($_GET)` returns;
  - `show`: the string a TaintedString converts to.
- `http_request_properties.dfy`, module `HttpRequestProperties`: lemmas that relate the accessors, and worked examples.

Line 256 of the file replaces `$_SERVER` by an `HttpRequest` object. From then on, every `$_SERVER['K']` in the accessors is an `offsetGet` and every `isset($_SERVER['K'])` is an `offsetExists`. The accessors therefore read through `Get` and `Isset`, with these consequences:
- `Host` returns a tainted value.
- `HTTPS` is also an `HTTP`-prefixed key. `Protocol` therefore compares a TaintedString with `"off"` and `""`, and that comparison goes through the object's string conversion.

## Behaviour as written

The code differs from the documented intent in several places. In each case the model follows the code:

- **`PortReadable` returns NULL.** It computes `""` or `":" . $port` into a local and has no `return` statement (`libs/http/http.php:161-170`). `PortSuffix` models the local and `PortReadable` models the NULL, so `URL` and `Root` never carry port text. `PortSuffixIsDiscarded` and `NonDefaultPortIsDropped` show this for a server on port 8080.
- **`URL` can repeat the query.** It appends `"?" . QueryString()` after the whole `REQUEST_URI`, which may already carry the query. Take the request `https://example.com/a/b?x=1` with `QUERY_STRING` `x=1`: its URL is `https://example.com/a/b?x=1?x=1` (`SecureRequestURL`).
- **`offsetExists` is `isset`.** It is false for a key that holds NULL.
- **`ServerIP` can be NULL.** It returns NULL, not `""`, when `SERVER_ADDR` is unset.
- **`Path` and `Method` have no `isset` guard.** They return NULL when their key is unset. `RequestURI` returns `""` in the same case.
- **The `HTTP` prefix rule also covers `HTTPS`.** It is a case-sensitive prefix test, so `http_x` and `XHTTP` stay plain. It leaves `REQUEST_URI`, `QUERY_STRING` and `REMOTE_ADDR` plain, although the client controls them too: the rule is not a complete taint boundary.
- **The redirect rule drops the first segment.** With `REDIRECT_QUERY_STRING` set, `QueryString` returns everything after the first `&`, or `""` when there is no `&`.

Every accessor is a function of its context, so repeated calls on an unchanged environment return the same value.

## Model

| member | source | states |
|---|---|---|
| `PhpValues.Text` | libs/http/http.php:94 | String conversion in concatenation: NULL becomes "", a plain string is itself, and a TaintedString becomes what its own conversion `show` makes of its content. |
| `PhpValues.Truthy` | libs/http/http.php:93 | NULL is falsy and a TaintedString object is truthy. A plain string is truthy exactly when it is neither "" nor "0". |
| `PhpValues.StrPos` | libs/http/http.php:224 | `strpos` with a one-character needle gives the index of the first occurrence: that index holds the character and nothing before it does. It gives false (None) exactly when the character does not occur. |
| `PhpValues.BeforeFirst` | libs/http/http.php:224-227 | The part before the first occurrence is a prefix of the input and holds no occurrence. It is the whole input exactly when there is no occurrence; otherwise the occurrence comes right after it. |
| `PhpValues.Substr` | libs/http/http.php:196 | `substr($s, $start)` gives the part of `$s` after `$start`, and "" once `$start` reaches the end. |
| `PhpValues.DropFirstSegment` | libs/http/http.php:194-196 | Dropping the first `&`-segment leaves a suffix of the input, and "" when the input has no `&`. |
| `PhpValues.DropFirstSegmentOf` | libs/http/http.php:194-196 | For `segment&rest` with no `&` in `segment`, `explode`'s first element is `segment` and what remains is exactly `rest`. |
| `RequestArray.IsHeaderKey` | libs/http/http.php:46 | `substr($key,0,4) === 'HTTP'` holds exactly when "HTTP" is a prefix of the key: case-sensitive, and shorter keys never match. |
| `RequestArray.Isset` | libs/http/http.php:34 | `isset` holds only for a present key, and never for a key that holds NULL. |
| `RequestArray.KnownKeys` | libs/http/http.php:46 | HTTP_HOST and HTTPS are classified as tainted. Every other key the accessors read is plain, and so are `http_x`, `XHTTP` and `HTT`. |
| `RequestArray.Get` | libs/http/http.php:42-53 | A read is NULL exactly when the key is unset or holds NULL. It is tainted exactly when the key is set and starts with "HTTP", and plain otherwise. Either way it carries the stored string unchanged. |
| `RequestArray.GetDependsOnKeyOnly` | libs/http/http.php:42-53 | A read depends only on the entry under the key read: two environments that agree on that entry read it alike. |
| `RequestArray.GetAfterWrite` | libs/http/http.php:24-30 | After a write, the written key reads as its new value, classified by its name, or as NULL if NULL was written. Every other key reads as before. |
| `RequestArray.GetAfterRemove` | libs/http/http.php:37-40 | After a removal, the removed key reads as NULL and every other key reads as before. |
| `RequestArray.HttpRequestArray.constructor` | libs/http/http.php:19-22 | The wrapper starts out holding the given environment. |
| `RequestArray.HttpRequestArray.OffsetSet` | libs/http/http.php:24-30 | Sets `data[key]` to the value and leaves every other key, and how it reads, unchanged. |
| `RequestArray.HttpRequestArray.OffsetExists` | libs/http/http.php:32-35 | `isset`: true exactly when a read would not give NULL, that is when the key is present and does not hold NULL. No taint logic applies. |
| `RequestArray.HttpRequestArray.OffsetUnset` | libs/http/http.php:37-40 | Removes only the key, is a no-op when the key is absent, and afterwards the key is not set. |
| `RequestArray.HttpRequestArray.OffsetGet` | libs/http/http.php:42-53 | Tainted exactly for a set `HTTP`-prefixed key, plain exactly for any other set key, with the stored string. |
| `HttpRequest.IsCLI` | libs/http/http.php:66-72 | CLI mode holds exactly when the SAPI is "cli" or REMOTE_ADDR is unset: a "cli" SAPI means CLI mode, outside CLI mode REMOTE_ADDR is present and not NULL, and another SAPI with REMOTE_ADDR set is never CLI mode. `CliDetection` adds that CLI mode holds exactly when Protocol is "cli" and exactly when Host is "localhost". |
| `HttpRequest.IP` | libs/http/http.php:78-83 | Always a plain string: the client address outside CLI mode, 127.0.0.1 in CLI mode. |
| `HttpRequest.URL` | libs/http/http.php:89-97 | NULL exactly in CLI mode, and never tainted. |
| `HttpRequest.Host` | libs/http/http.php:104-109 | Never NULL. It is tainted exactly when outside CLI mode with HTTP_HOST set, and then wraps that header. It is "localhost" in CLI mode and "" when the header is unset. |
| `HttpRequest.ServerName` | libs/http/http.php:111-115 | Always a plain string: SERVER_NAME when set, otherwise "". |
| `HttpRequest.Protocol` | libs/http/http.php:121-130 | Always one of "cli", "http" or "https", and "cli" exactly in CLI mode. |
| `HttpRequest.Port` | libs/http/http.php:154-159 | NULL exactly in CLI mode and never tainted. Outside CLI mode it is SERVER_PORT when that is set, and "" otherwise. |
| `HttpRequest.PortSuffix` | libs/http/http.php:161-170 | The local `$port` of PortReadable. It is "" exactly for port 80 over http or port 443 over https, and ":" followed by the port otherwise; it is ":" in CLI mode. |
| `HttpRequest.PortReadable` | libs/http/http.php:161-170 | Always NULL: the computed suffix is never returned. `PortSuffixIsDiscarded` shows this for port 8080, and `URLShape` and `RootShape` show that URL and Root carry no port text. |
| `HttpRequest.RequestURI` | libs/http/http.php:176-181 | NULL exactly in CLI mode, never tainted, and REQUEST_URI when that is set. |
| `HttpRequest.QueryString` | libs/http/http.php:188-200 | Always a plain string. In CLI mode it is the serialised `$_GET`. Otherwise it is REDIRECT_QUERY_STRING without its first `&`-segment when that key is set, else QUERY_STRING when that is set, else "". |
| `HttpRequest.Method` | libs/http/http.php:207-212 | "GET" in CLI mode and never tainted. Outside CLI mode it is the plain REQUEST_METHOD when that is set, and NULL exactly when it is unset. |
| `HttpRequest.IsHTTPS` | libs/http/http.php:136-139 | isHTTPS holds only outside CLI mode with HTTPS set. `HttpAndHttpsExclusive` adds that it never holds together with isHTTP. |
| `HttpRequest.IsHTTP` | libs/http/http.php:145-148 | isHTTP holds only outside CLI mode, and always when HTTPS is unset there. `ProtocolRule` gives the full rule. |
| `HttpRequest.Path` | libs/http/http.php:219-229 | NULL exactly in CLI mode or when REQUEST_URI is unset. Otherwise it is a prefix of REQUEST_URI with no "?", and all of it exactly when the URI holds no "?". |
| `HttpRequest.Root` | libs/http/http.php:236-242 | NULL exactly in CLI mode, and never tainted. |
| `HttpRequest.ServerIP` | libs/http/http.php:247-252 | 127.0.0.1 in CLI mode and never tainted. It is NULL exactly when outside CLI mode with SERVER_ADDR unset, and SERVER_ADDR otherwise. |
| `HttpRequestProperties.CliFallbacks` | libs/http/http.php:66-72 | In CLI mode: IP and ServerIP are 127.0.0.1, Host is localhost, Protocol is cli and Method is GET. URL, Port, RequestURI, Path, Root and PortReadable are NULL. QueryString is the serialised `$_GET`, and neither isHTTP nor isHTTPS holds. |
| `HttpRequestProperties.CliDetection` | libs/http/http.php:66-72 | isCLI holds exactly when Protocol is "cli", and exactly when Host is "localhost" (outside CLI mode Host is the tainted header or ""). Removing REMOTE_ADDR or setting the SAPI to "cli" always forces CLI mode, and a SAPI other than "cli" with REMOTE_ADDR set never does; the IP is then that address. |
| `HttpRequestProperties.ServerNameNotGated` | libs/http/http.php:111-115 | ServerName does not depend on the SAPI or on REMOTE_ADDR. |
| `HttpRequestProperties.ProtocolRule` | libs/http/http.php:121-130 | Outside CLI mode the protocol is http exactly when HTTPS is unset or converts to "off" or "", and https otherwise. |
| `HttpRequestProperties.ProtocolRuleOnRawValue` | libs/http/http.php:125-129 | When a TaintedString converts to its own content, the protocol is https exactly when HTTPS is set to something other than "off" and "". |
| `HttpRequestProperties.HttpAndHttpsExclusive` | libs/http/http.php:136-148 | isHTTP and isHTTPS are never both true. Both are false in CLI mode, and exactly one holds outside it. |
| `HttpRequestProperties.URLShape` | libs/http/http.php:89-97 | Outside CLI mode the URL is protocol, "://", server name and request URI, with no port text. "?" and the query string follow only when the flag is set and the query string is neither "" nor "0". |
| `HttpRequestProperties.PathWithinRequestURI` | libs/http/http.php:219-229 | Outside CLI mode, when REQUEST_URI is set, the path is its leading part and what follows the path is empty or starts with "?". When REQUEST_URI is unset, Path is NULL while RequestURI is "". |
| `HttpRequestProperties.RootShape` | libs/http/http.php:236-242 | Outside CLI mode the root is protocol, "://", host and path, with no port text. It contains "?" only if the client-supplied host does. |
| `HttpRequestProperties.QueryStringAfterRedirect` | libs/http/http.php:192-197 | With REDIRECT_QUERY_STRING set to `segment&rest`, where the segment holds no `&`, the query string is `rest`. |
| `HttpRequestProperties.QueryStringRedirectExample` | libs/http/http.php:192-197 | REDIRECT_QUERY_STRING `script.php&x=1&y=2` gives the query string `x=1&y=2`. |
| `HttpRequestProperties.SecureRequestFields` | libs/http/http.php:104-109 | For https://example.com/a/b?x=1 on port 443: the IP is plain, the host is tainted `example.com`, the protocol is https and the port suffix is "". |
| `HttpRequestProperties.SecureRequestPath` | libs/http/http.php:219-229 | For that request the path is `/a/b`. |
| `HttpRequestProperties.SecureRequestURL` | libs/http/http.php:93-96 | For that request the URL is `https://example.com/a/b?x=1?x=1` with the query and `https://example.com/a/b?x=1` without. |
| `HttpRequestProperties.PortSuffixIsDiscarded` | libs/http/http.php:161-170 | On port 8080 over http the computed port suffix is ":8080", yet PortReadable returns NULL. |
| `HttpRequestProperties.NonDefaultPortIsDropped` | libs/http/http.php:89-97 | On port 8080 the URL is `http://example.com/index.php` and the root is `http:///index.php`: neither carries the port. |
| `HttpRequestProperties.ZeroQueryStringIsDropped` | libs/http/http.php:93 | A query string of "0" is falsy, so the URL with the query suffix requested equals the URL without it. |
| `HttpRequestProperties.CliRequestExample` | libs/http/http.php:78-92 | Without REMOTE_ADDR the IP is 127.0.0.1, the protocol is cli and the URL is NULL. |

## Left out

- `offsetSet` with a NULL offset appends under PHP's next integer key (`libs/http/http.php:26-27`). It is not modelled: keys are strings.
- The environment holds strings and NULLs only. `$_SERVER` entries of other types (integers, arrays) are not modelled.
- The constructor's default argument NULL is not modelled: callers pass the empty map `map[]` instead.
- `php_sapi_name()` is a runtime call. It is the `sapi` field of the context.
- `http_build_query($_GET)` is a library serialiser over another global. Its result is the `builtQuery` field of the context.
- TaintedString is defined in `tainted.php`, which is not part of this model. It is the constructor `Tainted(s)`. Its string conversion, used when `Root` concatenates the host and when `Protocol` compares HTTPS with a string, is the `show` field of the context.
- The assignment `$_SERVER = new HttpRequest($_SERVER)` replaces a process-wide global. The environment is passed explicitly instead.
- The exception classes (`libs/http/http.php:5-6`) are declared but never thrown.
- `URL`'s `$QueryString` argument is modelled as a boolean that defaults to `true`, as in PHP. Any other PHP value would be judged by its truthiness.
- HttpRequest.QueryString: when REDIRECT_QUERY_STRING has no `&`, PHP 5 and 7 return `false` from `substr`, and PHP 8 returns `""`. The model returns `""`. Both are falsy and both concatenate as "".
- HttpRequest.PortSuffix: compares the port with plain string equality. PHP's loose `==` would also treat numeric strings such as `"080"` as equal to `"80"`. The result is discarded by PortReadable either way.
- HttpRequest.PortSuffix: `strtolower` is left out, because Protocol only ever returns lower-case strings.
