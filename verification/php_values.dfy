/**
 * The handful of PHP value semantics that http.php relies on: the three kinds
 * of value a read of the request environment can produce (NULL, a string, a
 * TaintedString object), their string conversion and truthiness, and the
 * string built-ins strpos, substr and explode as they are used there.
 */
module PhpValues {

  datatype Option<+T> = None | Some(value: T)

  /**
   * A PHP value as the request code sees it: NULL, a plain string, or a
   * TaintedString object wrapping the client-supplied string `s`.
   */
  datatype Value = Null | Plain(s: string) | Tainted(s: string)

  /**
   * String conversion, as `.` concatenation applies it: NULL becomes "", a
   * string is itself, and a TaintedString goes through its own conversion,
   * which lives outside this model and is passed in as `show`.
   */
  function Text(v: Value, show: string -> string): (r: string)
    ensures v.Plain? ==> r == v.s
    ensures v.Null? ==> r == ""
    ensures v.Tainted? ==> r == show(v.s)
  {
    match v
    case Null => ""
    case Plain(s) => s
    case Tainted(s) => show(s)
  }

  /**
   * PHP truthiness: NULL, "" and "0" are false, every other string is true,
   * and an object (a TaintedString) is always true.
   */
  predicate Truthy(v: Value)
    ensures Truthy(v) ==> !v.Null?
    ensures v.Tainted? ==> Truthy(v)
    ensures v.Plain? ==> (Truthy(v) <==> v.s !in {"", "0"})
  {
    match v
    case Null => false
    case Plain(s) => s != "" && s != "0"
    case Tainted(_) => true
  }

  /** `strpos($s, $c)` for a one-character needle: the first index of `c`, or None (PHP's false). */
  function StrPos(s: string, c: char): (r: Option<nat>)
    ensures r.None? <==> c !in s
    ensures r.Some? ==> r.value < |s| && s[r.value] == c && c !in s[..r.value]
  {
    if |s| == 0 then None
    else if s[0] == c then Some(0)
    else
      match StrPos(s[1..], c)
      case None => None
      case Some(i) =>
        assert s[..i + 1] == [s[0]] + s[1..][..i];
        Some(i + 1)
  }

  /** An index holding `c` with no `c` before it is the one strpos finds. */
  lemma {:induction false} StrPosFirst(s: string, c: char, j: nat)
    requires j < |s| && s[j] == c && c !in s[..j]
    ensures StrPos(s, c) == Some(j)
  {
    if j > 0 {
      assert s[0] == s[..j][0];
      assert s[1..][..j - 1] == s[..j][1..];
      StrPosFirst(s[1..], c, j - 1);
    }
  }

  /**
   * The part of `s` before the first `c`, or all of `s` when there is none:
   * both `substr($s, 0, strpos($s, $c))` and the first element of
   * `explode($c, $s)`.
   */
  function BeforeFirst(s: string, c: char): (r: string)
    ensures r <= s
    ensures c !in r
    ensures r == s <==> c !in s
    ensures |r| < |s| ==> s[|r|] == c
  {
    match StrPos(s, c)
    case None => s
    case Some(i) => s[..i]
  }

  /**
   * `substr($s, $start)` for a non-negative start. PHP 8 returns "" when the
   * start lies past the end; older versions return false there, which is
   * falsy and concatenates as "", just like "".
   */
  function Substr(s: string, start: nat): (r: string)
    ensures start <= |s| ==> s == s[..start] + r
    ensures start >= |s| ==> r == ""
  {
    if start <= |s| then s[start..] else ""
  }

  /**
   * What http.php does with REDIRECT_QUERY_STRING: take the first element of
   * `explode("&", $s)` and return `substr($s, strlen(first) + 1)`, i.e. drop
   * the first `&`-separated segment together with its `&`.
   */
  function DropFirstSegment(s: string): (r: string)
    ensures |r| <= |s| && r == s[|s| - |r|..]
    ensures '&' !in s ==> r == ""
  {
    Substr(s, |BeforeFirst(s, '&')| + 1)
  }

  /** The first segment is whatever comes before the first `&`; the rest survives intact. */
  lemma {:induction false} DropFirstSegmentOf(segment: string, rest: string)
    requires '&' !in segment
    ensures BeforeFirst(segment + "&" + rest, '&') == segment
    ensures DropFirstSegment(segment + "&" + rest) == rest
  {
    var s := segment + "&" + rest;
    assert s[..|segment|] == segment;
    assert s[|segment|] == '&';
    StrPosFirst(s, '&', |segment|);
    assert s[|segment| + 1..] == rest;
  }
}
