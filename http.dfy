/**
 * Requests as the front end issues them, and the shape of its URLs: a path,
 * then `?key=value` pairs joined with `&`. Values are pasted in verbatim, with
 * no percent-encoding, exactly as the template literals of the source do.
 * ParseUrl splits a URL at its first `?`, the query at `&` and each pair at
 * its first `=`; the round-trip lemma says when that recovers exactly the
 * parameters written. It does not percent-decode, read `+` as a space or
 * drop a `#` fragment, so a value holding `%`, `+` or `#` splits back as
 * written even though a real query-string decoder would change it.
 */
module Http {
  import opened Wrappers
  import opened Text
  import opened Js

  datatype Request =
    | Get(url: string)
    | Post(url: string, body: Value)
    | Put(url: string, body: Value)
    | Delete(url: string)

  datatype Param = Param(key: string, value: string)

  datatype ParsedUrl = ParsedUrl(path: string, params: seq<Param>)

  function Pair(p: Param): string {
    p.key + "=" + p.value
  }

  /** The text appended for each parameter after the first: `&key=value` each. */
  function Suffix(ps: seq<Param>): string
    decreases |ps|
  {
    if |ps| == 0 then "" else "&" + Pair(ps[0]) + Suffix(ps[1..])
  }

  /** `path?first&rest…`. */
  function WithQuery(path: string, first: Param, rest: seq<Param>): string {
    path + "?" + Pair(first) + Suffix(rest)
  }

  /** The optional parameters that are sent: those whose value is not the empty string. */
  function NonEmpty(ps: seq<Param>): (r: seq<Param>)
    decreases |ps|
  {
    if |ps| == 0 then []
    else if ps[0].value == "" then NonEmpty(ps[1..])
    else [ps[0]] + NonEmpty(ps[1..])
  }

  /** The filters sent are exactly the given ones with a non-empty value, in their order. */
  lemma {:induction false} NonEmptyMembers(ps: seq<Param>)
    ensures forall p :: p in NonEmpty(ps) <==> p in ps && p.value != ""
    ensures |NonEmpty(ps)| <= |ps|
    ensures (forall i :: 0 <= i < |ps| ==> ps[i].value != "") ==> NonEmpty(ps) == ps
    decreases |ps|
  {
    if |ps| > 0 {
      NonEmptyMembers(ps[1..]);
      assert ps == [ps[0]] + ps[1..];
      if ps[0].value != "" {
        assert (forall i :: 0 <= i < |ps| ==> ps[i].value != "") ==> NonEmpty(ps) == [ps[0]] + ps[1..];
      }
    }
  }

  /**
   * The list request of every screen and service: page and limit first, then
   * each optional filter in the given order, present only when non-empty.
   */
  function ListUrl(path: string, page: int, limit: int, optional: seq<Param>): string {
    WithQuery(path, Param("page", IntToString(page)),
              [Param("limit", IntToString(limit))] + NonEmpty(optional))
  }

  // ---------------------------------------------------------------------------
  // Reading a URL back
  // ---------------------------------------------------------------------------

  function ParsePair(s: string): Param {
    var (k, v) := SplitFirst(s, '=');
    Param(k, v.GetOr(""))
  }

  function ParseAll(parts: seq<string>): (ps: seq<Param>)
    ensures |ps| == |parts|
    decreases |parts|
  {
    if |parts| == 0 then [] else [ParsePair(parts[0])] + ParseAll(parts[1..])
  }

  function ParseQuery(q: string): seq<Param> {
    ParseAll(Split(q, '&'))
  }

  /** The path before the first `?` and the `&`-separated `key=value` pairs after it. */
  function ParseUrl(url: string): ParsedUrl {
    var (path, query) := SplitFirst(url, '?');
    match query
    case None => ParsedUrl(path, [])
    case Some(q) => ParsedUrl(path, ParseQuery(q))
  }

  /** A parameter whose pair the query split recovers: no `&` anywhere, no `=` in the key. */
  predicate Safe(p: Param) {
    '&' !in p.key && '=' !in p.key && '&' !in p.value
  }

  predicate AllSafe(ps: seq<Param>) {
    forall i :: 0 <= i < |ps| ==> Safe(ps[i])
  }

  lemma {:induction false} SplitAppend(a: string, sep: char, b: string)
    requires sep !in b
    ensures Split(a + [sep] + b, sep) == Split(a, sep) + [b]
    decreases |a|
  {
    var s := a + [sep] + b;
    if |a| == 0 {
      assert s[0] == sep && s[1..] == b;
    } else {
      assert s[1..] == a[1..] + [sep] + b;
      SplitAppend(a[1..], sep, b);
    }
  }

  /** The `key=value` texts of the parameters, in order. */
  function Pairs(ps: seq<Param>): (r: seq<string>)
    ensures |r| == |ps|
    decreases |ps|
  {
    if |ps| == 0 then [] else [Pair(ps[0])] + Pairs(ps[1..])
  }

  lemma {:induction false} SplitSuffix(a: string, ps: seq<Param>)
    requires AllSafe(ps)
    ensures Split(a + Suffix(ps), '&') == Split(a, '&') + Pairs(ps)
    decreases |ps|
  {
    if |ps| > 0 {
      var a' := a + "&" + Pair(ps[0]);
      assert a + Suffix(ps) == a' + Suffix(ps[1..]);
      assert '&' !in Pair(ps[0]);
      SplitAppend(a, '&', Pair(ps[0]));
      assert AllSafe(ps[1..]) by {
        forall i | 0 <= i < |ps[1..]| ensures Safe(ps[1..][i]) {
          assert ps[1..][i] == ps[i + 1];
        }
      }
      SplitSuffix(a', ps[1..]);
      assert Pairs(ps) == [Pair(ps[0])] + Pairs(ps[1..]);
      calc {
        Split(a + Suffix(ps), '&');
        Split(a', '&') + Pairs(ps[1..]);
        (Split(a, '&') + [Pair(ps[0])]) + Pairs(ps[1..]);
        Split(a, '&') + Pairs(ps);
      }
    } else {
      assert a + Suffix(ps) == a;
    }
  }

  lemma {:induction false} ParsePairOf(p: Param)
    requires '=' !in p.key
    ensures ParsePair(Pair(p)) == p
  {
    SplitFirstAt(p.key, '=', p.value);
  }

  lemma {:induction false} ParseAllPairs(ps: seq<Param>)
    requires AllSafe(ps)
    ensures ParseAll(Pairs(ps)) == ps
    decreases |ps|
  {
    if |ps| > 0 {
      ParsePairOf(ps[0]);
      assert AllSafe(ps[1..]) by {
        forall i | 0 <= i < |ps[1..]| ensures Safe(ps[1..][i]) {
          assert ps[1..][i] == ps[i + 1];
        }
      }
      ParseAllPairs(ps[1..]);
      assert Pairs(ps) == [Pair(ps[0])] + Pairs(ps[1..]);
      assert Pairs(ps)[1..] == Pairs(ps[1..]);
    }
  }

  /**
   * Round trip: a URL written from a path without `?` and safe parameters
   * splits back into exactly that path and those parameters, in that order.
   */
  lemma {:induction false} ParseWithQuery(path: string, first: Param, rest: seq<Param>)
    requires '?' !in path
    requires Safe(first) && AllSafe(rest)
    ensures ParseUrl(WithQuery(path, first, rest)) == ParsedUrl(path, [first] + rest)
  {
    var q := Pair(first) + Suffix(rest);
    assert WithQuery(path, first, rest) == path + ['?'] + q;
    SplitFirstAt(path, '?', q);
    SplitSuffix(Pair(first), rest);
    assert '&' !in Pair(first);
    assert Split(q, '&') == Pairs([first] + rest) by {
      assert Split(Pair(first), '&') == [Pair(first)];
      assert ([first] + rest)[1..] == rest;
    }
    assert AllSafe([first] + rest);
    ParseAllPairs([first] + rest);
  }

  lemma {:induction false} IntToStringSafe(i: int)
    ensures '&' !in IntToString(i) && '=' !in IntToString(i) && '?' !in IntToString(i)
  {
  }

  /**
   * What a list request carries: page, limit, and each optional filter
   * whose value is non-empty, in the order given; nothing else.
   */
  lemma {:induction false} ParseListUrl(path: string, page: int, limit: int, optional: seq<Param>)
    requires '?' !in path
    requires AllSafe(optional)
    ensures ParseUrl(ListUrl(path, page, limit, optional))
         == ParsedUrl(path, [Param("page", IntToString(page)), Param("limit", IntToString(limit))]
                            + NonEmpty(optional))
  {
    IntToStringSafe(page);
    IntToStringSafe(limit);
    ParseFirstTwo(path, Param("page", IntToString(page)), Param("limit", IntToString(limit)), optional);
  }

  lemma {:induction false} ParseFirstTwo(path: string, first: Param, second: Param, optional: seq<Param>)
    requires '?' !in path
    requires Safe(first) && Safe(second) && AllSafe(optional)
    ensures ParseUrl(WithQuery(path, first, [second] + NonEmpty(optional)))
         == ParsedUrl(path, [first, second] + NonEmpty(optional))
  {
    var ne := NonEmpty(optional);
    NonEmptySafe(optional);
    AllSafeConcat([second], ne);
    ParseWithQuery(path, first, [second] + ne);
    SeqRegroup(first, second, ne);
  }

  lemma {:induction false} SeqRegroup<T>(x: T, y: T, zs: seq<T>)
    ensures [x] + ([y] + zs) == [x, y] + zs
  {
  }

  lemma {:induction false} AllSafeConcat(a: seq<Param>, b: seq<Param>)
    requires AllSafe(a) && AllSafe(b)
    ensures AllSafe(a + b)
  {
    forall i | 0 <= i < |a + b| ensures Safe((a + b)[i]) {
      if i >= |a| {
        assert (a + b)[i] == b[i - |a|];
      }
    }
  }

  lemma {:induction false} NonEmptySafe(ps: seq<Param>)
    requires AllSafe(ps)
    ensures AllSafe(NonEmpty(ps))
    decreases |ps|
  {
    if |ps| > 0 {
      assert AllSafe(ps[1..]) by {
        forall i | 0 <= i < |ps[1..]| ensures Safe(ps[1..][i]) {
          assert ps[1..][i] == ps[i + 1];
        }
      }
      NonEmptySafe(ps[1..]);
    }
  }

  /** The keys a parsed URL carries. */
  function ParamKeys(ps: seq<Param>): set<string> {
    set i | 0 <= i < |ps| :: ps[i].key
  }
}
