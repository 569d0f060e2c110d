/**
 * HttpRequestArray (libs/http/http.php:15-54): an array-access view of the
 * request environment that wraps every value read under an `HTTP`-prefixed
 * key as a TaintedString. Writes, existence tests and removals apply no
 * taint logic.
 *
 * The environment maps keys to `Option<string>`: a key may be present with
 * the value NULL, which PHP's `isset` treats as absent.
 */
module RequestArray {
  import opened PhpValues

  type Env = map<string, Option<string>>

  /**
   * The classification rule: `substr($key, 0, 4) === 'HTTP'`. Case-sensitive,
   * and a prefix test, not a substring test.
   */
  predicate IsHeaderKey(key: string)
    ensures IsHeaderKey(key) <==> "HTTP" <= key
  {
    key[..if |key| < 4 then |key| else 4] == "HTTP"
  }

  /** One character that differs from "HTTP" within the first four settles the rule. */
  lemma NotHeaderKeyAt(key: string, i: nat)
    requires i < 4 && i < |key| && key[i] != "HTTP"[i]
    ensures !IsHeaderKey(key)
  {
    assert key[..if |key| < 4 then |key| else 4][i] == key[i];
  }

  /** How the rule classifies the keys the request accessors read, and two near misses. */
  lemma KnownKeys()
    ensures IsHeaderKey("HTTP_HOST") && IsHeaderKey("HTTPS")
    ensures !IsHeaderKey("REMOTE_ADDR") && !IsHeaderKey("SERVER_ADDR") && !IsHeaderKey("SERVER_NAME")
    ensures !IsHeaderKey("SERVER_PORT") && !IsHeaderKey("REQUEST_URI") && !IsHeaderKey("REQUEST_METHOD")
    ensures !IsHeaderKey("QUERY_STRING") && !IsHeaderKey("REDIRECT_QUERY_STRING")
    ensures !IsHeaderKey("http_x") && !IsHeaderKey("XHTTP") && !IsHeaderKey("HTT")
  {
    NotHeaderKeyAt("REMOTE_ADDR", 0);
    NotHeaderKeyAt("SERVER_ADDR", 0);
    NotHeaderKeyAt("SERVER_NAME", 0);
    NotHeaderKeyAt("SERVER_PORT", 0);
    NotHeaderKeyAt("REQUEST_URI", 0);
    NotHeaderKeyAt("REQUEST_METHOD", 0);
    NotHeaderKeyAt("QUERY_STRING", 0);
    NotHeaderKeyAt("REDIRECT_QUERY_STRING", 0);
    NotHeaderKeyAt("http_x", 0);
    NotHeaderKeyAt("XHTTP", 0);
  }

  /** PHP `isset($data[$key])`: the key is present and its value is not NULL. */
  predicate Isset(data: Env, key: string)
    ensures Isset(data, key) ==> key in data
    ensures key in data && data[key] == None ==> !Isset(data, key)
  {
    key in data && data[key].Some?
  }

  /**
   * The read rule of `offsetGet`: NULL for a key that is not set, a
   * TaintedString around the stored string for a header key, the stored
   * string itself otherwise. The stored content is never altered.
   */
  function Get(data: Env, key: string): (r: Value)
    ensures r.Null? <==> !Isset(data, key)
    ensures r.Tainted? <==> Isset(data, key) && IsHeaderKey(key)
    ensures r.Plain? <==> Isset(data, key) && !IsHeaderKey(key)
    ensures !r.Null? ==> r.s == data[key].value
  {
    if Isset(data, key) then
      if IsHeaderKey(key) then Tainted(data[key].value) else Plain(data[key].value)
    else
      Null
  }

  /** A read depends only on the entry under the key read: two environments that agree on it read it alike. */
  lemma GetDependsOnKeyOnly(d1: Env, d2: Env, key: string)
    requires Isset(d1, key) == Isset(d2, key)
    requires Isset(d1, key) ==> d1[key].value == d2[key].value
    ensures Get(d1, key) == Get(d2, key)
  {
  }

  /** A write under `key` changes what `key` reads and nothing else. */
  lemma GetAfterWrite(data: Env, key: string, value: Option<string>, other: string)
    ensures Get(data[key := value], key) ==
              match value
              case None => Null
              case Some(v) => if IsHeaderKey(key) then Tainted(v) else Plain(v)
    ensures other != key ==> Get(data[key := value], other) == Get(data, other)
  {
  }

  /** After removing `key`, it reads NULL; every other key reads as before. */
  lemma GetAfterRemove(data: Env, key: string, other: string)
    ensures Get(data - {key}, key) == Null
    ensures other != key ==> Get(data - {key}, other) == Get(data, other)
  {
  }

  /**
   * The object itself. PHP declares the class abstract and uses it through
   * its subclass HttpRequest; the state and the members are the same.
   */
  class HttpRequestArray {
    var data: Env

    constructor (data: Env)
      ensures this.data == data
    {
      this.data := data;
    }

    /** `offsetSet($key, $value)` for a non-NULL key. */
    method OffsetSet(key: string, value: Option<string>)
      modifies this
      ensures data == old(data)[key := value]
      ensures forall k :: k != key ==> Get(data, k) == Get(old(data), k)
    {
      data := data[key := value];
    }

    /** `offsetExists($key)` is `isset`: false for a missing key and for a key holding NULL. */
    predicate OffsetExists(key: string)
      reads this
      ensures OffsetExists(key) <==> !Get(data, key).Null?
    {
      Isset(data, key)
    }

    /** `offsetUnset($key)` removes `key`; removing a missing key changes nothing. */
    method OffsetUnset(key: string)
      modifies this
      ensures data == old(data) - {key}
      ensures key !in old(data) ==> data == old(data)
      ensures !OffsetExists(key)
      ensures forall k :: k != key ==> Get(data, k) == Get(old(data), k)
    {
      data := data - {key};
    }

    /** `offsetGet($key)`: the read rule `Get` applied to the current contents. */
    function OffsetGet(key: string): (r: Value)
      reads this
      ensures r.Tainted? <==> Isset(data, key) && IsHeaderKey(key)
      ensures r.Plain? <==> Isset(data, key) && !IsHeaderKey(key)
      ensures !r.Null? ==> r.s == data[key].value
    {
      Get(data, key)
    }
  }
}
