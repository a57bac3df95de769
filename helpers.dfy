/** String and map helpers of pkg/easyhttp/helpers.go: URL normalisation,
    browser choice, header conversion and query-parameter expansion. */
module Helpers {
  import opened Types

  // ---------------------------------------------------------------------
  // String primitives (the Go strings package, restricted to one cut char)
  // ---------------------------------------------------------------------

  predicate HasPrefix(s: string, p: string) {
    |p| <= |s| && s[..|p|] == p
  }

  /** Every character of `s` is `c`; true of the empty string. */
  predicate AllChars(s: string, c: char) {
    forall i :: 0 <= i < |s| ==> s[i] == c
  }

  /** strings.TrimRight(s, string(c)): the longest prefix of `s` that does
      not end in `c`; everything cut off is `c`. */
  function TrimRight(s: string, c: char): (r: string)
    ensures |r| <= |s| && r == s[..|r|]
    ensures r == [] || r[|r| - 1] != c
    ensures AllChars(s[|r|..], c)
    decreases |s|
  {
    if |s| > 0 && s[|s| - 1] == c then
      var r := TrimRight(s[..|s| - 1], c);
      assert s[|r|..] == s[..|s| - 1][|r|..] + [c];
      r
    else s
  }

  /** strings.TrimLeft(s, string(c)): the longest suffix of `s` that does
      not start with `c`; everything cut off is `c`. */
  function TrimLeft(s: string, c: char): (r: string)
    ensures |r| <= |s| && r == s[|s| - |r|..]
    ensures r == [] || r[0] != c
    ensures AllChars(s[..|s| - |r|], c)
    decreases |s|
  {
    if |s| > 0 && s[0] == c then TrimLeft(s[1..], c) else s
  }

  /** A string that ends in something other than `c` is its own trim. */
  lemma TrimRightNoop(s: string, c: char)
    requires s == [] || s[|s| - 1] != c
    ensures TrimRight(s, c) == s
  {
  }

  /** TrimRight yields the empty string exactly when every character is cut. */
  lemma {:induction false} TrimRightEmpty(s: string, c: char)
    ensures TrimRight(s, c) == [] <==> AllChars(s, c)
  {
    var r := TrimRight(s, c);
    if r != [] {
      assert r[|r| - 1] == s[|r| - 1];
    }
  }

  /** A character other than `c` is never cut off. */
  lemma {:induction false} TrimRightKeeps(s: string, c: char, i: nat)
    requires i < |s| && s[i] != c
    ensures i < |TrimRight(s, c)|
    decreases |s|
  {
    if s[|s| - 1] == c {
      TrimRightKeeps(s[..|s| - 1], c, i);
    }
  }

  // ---------------------------------------------------------------------
  // GetRandomBrowserType
  // ---------------------------------------------------------------------

  /** The browser at `randomIndex` in [chrome, safari, firefox]; the index
      is the value rand.Intn(3) drew. */
  function GetRandomBrowserType(randomIndex: nat): (b: BrowserType)
    requires randomIndex < 3
    ensures b == Chrome || b == Safari || b == Firefox
  {
    [Chrome, Safari, Firefox][randomIndex]
  }

  /** Each of the three browsers is drawn for some index. */
  lemma EveryBrowserDrawn(b: BrowserType)
    requires b == Chrome || b == Safari || b == Firefox
    ensures exists i: nat :: i < 3 && GetRandomBrowserType(i) == b
  {
    if b == Chrome {
      assert GetRandomBrowserType(0) == b;
    } else if b == Safari {
      assert GetRandomBrowserType(1) == b;
    } else {
      assert GetRandomBrowserType(2) == b;
    }
  }

  // ---------------------------------------------------------------------
  // NormalizeURL
  // ---------------------------------------------------------------------

  const Https: string := "https://"

  /** Drops every trailing '/' and prefixes "https://" unless what remains
      already starts with "http". */
  function NormalizeURL(url: string): (r: string)
    ensures HasPrefix(r, "http")
  {
    var trimmed := TrimRight(url, '/');
    if HasPrefix(trimmed, "http") then trimmed else Https + trimmed
  }

  /** The scheme decision depends on the input alone: an input starting
      with "http" (such as "httpbin.org") gets no scheme, any other input
      gets exactly "https://" in front of its trimmed form. */
  lemma NormalizeURLScheme(url: string)
    ensures HasPrefix(url, "http") ==> NormalizeURL(url) == TrimRight(url, '/')
    ensures !HasPrefix(url, "http") ==> NormalizeURL(url) == Https + TrimRight(url, '/')
  {
    var t := TrimRight(url, '/');
    if HasPrefix(url, "http") {
      assert url[..4] == "http";
      assert url[3] == url[..4][3] == 'p';
      TrimRightKeeps(url, '/', 3);
      assert t[..4] == url[..4];
    } else if |t| >= 4 {
      assert url[..4] == t[..4];
    }
  }

  /** The result ends in '/' exactly when the input is empty or all
      slashes, and then it is "https://". */
  lemma NormalizeURLTrailingSlash(url: string)
    ensures var r := NormalizeURL(url);
      (r[|r| - 1] == '/') <==> AllChars(url, '/')
    ensures AllChars(url, '/') ==> NormalizeURL(url) == Https
  {
    var t := TrimRight(url, '/');
    var r := NormalizeURL(url);
    TrimRightEmpty(url, '/');
    if t == [] {
      assert !HasPrefix(t, "http");
      assert r == Https + [];
    } else {
      assert r[|r| - 1] == t[|t| - 1];
    }
  }

  /** Normalising twice changes nothing, except for an empty or all-slash
      input: that normalises to "https://", whose trailing slashes the
      second pass removes, leaving "https:". */
  lemma NormalizeURLIdempotent(url: string)
    ensures !AllChars(url, '/') ==> NormalizeURL(NormalizeURL(url)) == NormalizeURL(url)
    ensures AllChars(url, '/') ==> NormalizeURL(NormalizeURL(url)) == "https:"
  {
    var r := NormalizeURL(url);
    NormalizeURLTrailingSlash(url);
    if !AllChars(url, '/') {
      TrimRightNoop(r, '/');
    } else {
      assert r == Https;
      assert TrimRight(r, '/') == "https:" by {
        assert TrimRight("https:", '/') == "https:";
        assert TrimRight("https:/", '/') == TrimRight("https:", '/');
      }
      assert HasPrefix("https:", "http");
    }
  }

  /** A concrete case of the scheme rule: "httpbin.org/" keeps no scheme. */
  lemma NormalizeHttpbin()
    ensures NormalizeURL("httpbin.org/") == "httpbin.org"
  {
    NormalizeURLScheme("httpbin.org/");
    assert TrimRight("httpbin.org", '/') == "httpbin.org";
  }

  // ---------------------------------------------------------------------
  // toHttpHeaders
  // ---------------------------------------------------------------------

  /** Turns each header value into a one-element list, key by key, in the
      order the map range visits them. */
  method ToHttpHeaders(headers: map<string, string>) returns (converted: map<string, seq<string>>)
    ensures converted.Keys == headers.Keys
    ensures forall k :: k in converted ==> converted[k] == [headers[k]]
  {
    converted := map[];
    var remaining := headers.Keys;
    while remaining != {}
      invariant remaining <= headers.Keys
      invariant converted.Keys == headers.Keys - remaining
      invariant forall k :: k in converted ==> converted[k] == [headers[k]]
      decreases remaining
    {
      var k :| k in remaining;
      converted := converted[k := [headers[k]]];
      remaining := remaining - {k};
    }
  }

  // ---------------------------------------------------------------------
  // BuildQueryString (the pairs handed to url.Values, before encoding)
  // ---------------------------------------------------------------------

  /** A parameter value: a []string, or any other value already rendered
      by fmt.Sprint. */
  datatype ParamValue = StringList(items: seq<string>) | Other(text: string)

  datatype QueryPair = QueryPair(key: string, value: string)

  /** The pairs one parameter contributes: one "key[]" pair per list item
      in item order, or a single pair under the key itself. */
  function ExpandParam(key: string, v: ParamValue): (r: seq<QueryPair>)
    ensures v.StringList? ==> |r| == |v.items|
    ensures v.StringList? ==> forall j :: 0 <= j < |r| ==> r[j] == QueryPair(key + "[]", v.items[j])
    ensures v.Other? ==> r == [QueryPair(key, v.text)]
  {
    match v
    case StringList(items) => seq(|items|, j requires 0 <= j < |items| => QueryPair(key + "[]", items[j]))
    case Other(text) => [QueryPair(key, text)]
  }

  /** One more list item adds one "key[]" pair at the end. */
  lemma ExpandParamSnoc(key: string, items: seq<string>, x: string)
    ensures ExpandParam(key, StringList(items + [x])) == ExpandParam(key, StringList(items)) + [QueryPair(key + "[]", x)]
  {
  }

  /** The order in which a map range visits the keys: each key once. */
  predicate IsEnumeration(order: seq<string>, keys: set<string>) {
    && (forall k :: k in keys ==> k in order)
    && (forall i :: 0 <= i < |order| ==> order[i] in keys)
    && (forall i, j :: 0 <= i < j < |order| ==> order[i] != order[j])
  }

  /** Every key in `ks` names a parameter. */
  predicate KeysIn(ks: seq<string>, params: map<string, ParamValue>) {
    forall i :: 0 <= i < |ks| ==> ks[i] in params
  }

  lemma KeysInPrefix(ks: seq<string>, params: map<string, ParamValue>, n: nat)
    requires KeysIn(ks, params) && n <= |ks|
    ensures KeysIn(ks[..n], params)
  {
  }

  /** The pairs of the parameters named in `ks`, in that order. */
  function ExpandAll(params: map<string, ParamValue>, ks: seq<string>): seq<QueryPair>
    requires KeysIn(ks, params)
  {
    if ks == [] then []
    else ExpandAll(params, ks[..|ks| - 1]) + ExpandParam(ks[|ks| - 1], params[ks[|ks| - 1]])
  }

  /** Expansion distributes over concatenation of key orders, so the pairs
      of each key form one contiguous block, in visiting order. */
  lemma {:induction false} ExpandAllAppend(params: map<string, ParamValue>, a: seq<string>, b: seq<string>)
    requires KeysIn(a, params)
    requires KeysIn(b, params)
    ensures KeysIn(a + b, params)
    ensures ExpandAll(params, a + b) == ExpandAll(params, a) + ExpandAll(params, b)
    decreases |b|
  {
    assert KeysIn(a + b, params) by {
      forall i | 0 <= i < |a + b| ensures (a + b)[i] in params {
        if i < |a| { assert (a + b)[i] == a[i]; } else { assert (a + b)[i] == b[i - |a|]; }
      }
    }
    if b == [] {
      assert a + b == a;
    } else {
      var b' := b[..|b| - 1];
      var last := b[|b| - 1];
      assert (a + b)[..|a + b| - 1] == a + b';
      ExpandAllAppend(params, a, b');
      assert ExpandAll(params, b) == ExpandAll(params, b') + ExpandParam(last, params[last]);
    }
  }

  /** A pair is produced exactly when one of the visited keys contributes it. */
  lemma {:induction false} ExpandAllMembership(params: map<string, ParamValue>, ks: seq<string>, p: QueryPair)
    requires KeysIn(ks, params)
    ensures p in ExpandAll(params, ks) <==>
      exists i :: 0 <= i < |ks| && p in ExpandParam(ks[i], params[ks[i]])
    decreases |ks|
  {
    if ks != [] {
      var ks' := ks[..|ks| - 1];
      var last := ks[|ks| - 1];
      KeysInPrefix(ks, params, |ks| - 1);
      ExpandAllMembership(params, ks', p);
      assert ExpandAll(params, ks) == ExpandAll(params, ks') + ExpandParam(last, params[last]);
      if p in ExpandAll(params, ks') {
        var i :| 0 <= i < |ks'| && p in ExpandParam(ks'[i], params[ks'[i]]);
        assert ks[i] == ks'[i];
      } else if p in ExpandParam(last, params[last]) {
        assert ks[|ks| - 1] == last;
      }
      if exists i :: 0 <= i < |ks| && p in ExpandParam(ks[i], params[ks[i]]) {
        var i :| 0 <= i < |ks| && p in ExpandParam(ks[i], params[ks[i]]);
        if i < |ks'| {
          assert ks'[i] == ks[i];
        }
      }
    }
  }

  /** The inner loop of BuildQueryString: each item of a []string value
      added under "key[]", in item order. */
  method AddItems(pairs: seq<QueryPair>, key: string, items: seq<string>) returns (out: seq<QueryPair>)
    ensures out == pairs + ExpandParam(key, StringList(items))
  {
    out := pairs;
    for j := 0 to |items|
      invariant out == pairs + ExpandParam(key, StringList(items[..j]))
    {
      ExpandParamSnoc(key, items[..j], items[j]);
      assert items[..j + 1] == items[..j] + [items[j]];
      out := out + [QueryPair(key + "[]", items[j])];
    }
    assert items[..|items|] == items;
  }

  /** Expands the parameters into query pairs, visiting the keys in the
      order the map range picks. */
  method BuildQueryString(params: map<string, ParamValue>, order: seq<string>) returns (pairs: seq<QueryPair>)
    requires IsEnumeration(order, params.Keys)
    ensures pairs == ExpandAll(params, order)
  {
    if |params| == 0 {
      return [];
    }
    assert KeysIn(order, params);
    pairs := [];
    for i := 0 to |order|
      invariant KeysIn(order[..i], params)
      invariant pairs == ExpandAll(params, order[..i])
    {
      var key := order[i];
      KeysInPrefix(order, params, i + 1);
      ghost var before := pairs;
      match params[key] {
        case StringList(items) =>
          pairs := AddItems(pairs, key, items);
        case Other(text) =>
          pairs := pairs + [QueryPair(key, text)];
      }
      assert order[..i + 1][..i] == order[..i];
      assert ExpandAll(params, order[..i + 1]) == before + ExpandParam(key, params[key]);
    }
    assert order[..|order|] == order;
  }

  /** Over a whole map: a pair is produced exactly when some parameter
      contributes it; an empty map yields no pairs. */
  lemma QueryPairsCoverParams(params: map<string, ParamValue>, order: seq<string>, p: QueryPair)
    requires IsEnumeration(order, params.Keys)
    ensures p in ExpandAll(params, order) <==>
      exists k :: k in params && p in ExpandParam(k, params[k])
    ensures params == map[] ==> ExpandAll(params, order) == []
  {
    ExpandAllMembership(params, order, p);
    if exists k :: k in params && p in ExpandParam(k, params[k]) {
      var k :| k in params && p in ExpandParam(k, params[k]);
      var i :| 0 <= i < |order| && order[i] == k;
    }
  }
}
