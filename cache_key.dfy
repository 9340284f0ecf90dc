/** Cache-key derivation: `cache_key(query, **params)`, which hashes the string
    `"{query}:{sorted(params.items())}"`. The hash itself is a parameter. */
module CacheKeys {

  /** A keyword-argument value as the endpoints pass one: `None`, a `str` or an `int`. */
  datatype ParamValue = NoneValue | Text(s: string) | Number(n: int)

  /** One `(name, value)` item of a keyword-argument dict, in call order. */
  type Param = (string, ParamValue)

  /** What `hexdigest()` produces: 32 lower-case hexadecimal digits. */
  predicate IsHexDigest(s: string) {
    |s| == 32 && forall i :: 0 <= i < |s| ==> s[i] in "0123456789abcdef"
  }

  type Digest = s: string | IsHexDigest(s) witness "00000000000000000000000000000000"

  // ---------------------------------------------------------------------------
  // Python's ordering on str

  /** `a < b` on Python strings: code point by code point, a proper prefix first. */
  predicate StrLess(a: string, b: string)
    decreases |a|
  {
    if |a| == 0 then |b| > 0
    else if |b| == 0 then false
    else if a[0] != b[0] then a[0] < b[0]
    else StrLess(a[1..], b[1..])
  }

  /** `a` and `b` agree on their first `k` characters, and then either `a` ends while `b`
      goes on, or the character of `a` at `k` is the smaller. */
  predicate DiffersFirstAt(a: string, b: string, k: int) {
    && 0 <= k <= |a| && k <= |b|
    && a[..k] == b[..k]
    && (if k == |a| then k < |b| else k < |b| && a[k] < b[k])
  }

  /** The recursive comparison is the lexicographic order: `a < b` exactly when they
      first differ in `b`'s favour or `a` is a proper prefix of `b`. */
  lemma {:induction false} StrLessIsFirstDifference(a: string, b: string)
    ensures StrLess(a, b) <==> exists k :: DiffersFirstAt(a, b, k)
    decreases |a|
  {
    if |a| == 0 || |b| == 0 {
      if |a| == 0 && |b| > 0 {
        assert DiffersFirstAt(a, b, 0);
      }
    } else if a[0] != b[0] {
      if a[0] < b[0] {
        assert DiffersFirstAt(a, b, 0);
      }
    } else {
      var a', b' := a[1..], b[1..];
      StrLessIsFirstDifference(a', b');
      forall k | DiffersFirstAt(a, b, k)
        ensures DiffersFirstAt(a', b', k - 1)
      {
        assert k > 0;
        assert a'[..k - 1] == a[..k][1..] && b'[..k - 1] == b[..k][1..];
      }
      forall k | DiffersFirstAt(a', b', k)
        ensures DiffersFirstAt(a, b, k + 1)
      {
        assert a[..k + 1] == [a[0]] + a'[..k] && b[..k + 1] == [b[0]] + b'[..k];
      }
      if StrLess(a, b) {
        var k :| DiffersFirstAt(a', b', k);
        assert DiffersFirstAt(a, b, k + 1);
      }
      if exists k :: DiffersFirstAt(a, b, k) {
        var k :| DiffersFirstAt(a, b, k);
        assert DiffersFirstAt(a', b', k - 1);
      }
    }
  }

  lemma {:induction false} StrLessIrreflexive(a: string)
    ensures !StrLess(a, a)
    decreases |a|
  {
    if |a| > 0 {
      StrLessIrreflexive(a[1..]);
    }
  }

  lemma {:induction false} StrLessTransitive(a: string, b: string, c: string)
    requires StrLess(a, b) && StrLess(b, c)
    ensures StrLess(a, c)
    decreases |a|
  {
    if |a| > 0 && a[0] == b[0] && b[0] == c[0] {
      StrLessTransitive(a[1..], b[1..], c[1..]);
    }
  }

  lemma StrLessAsymmetric(a: string, b: string)
    requires StrLess(a, b)
    ensures !StrLess(b, a)
  {
    if StrLess(b, a) {
      StrLessTransitive(a, b, a);
      StrLessIrreflexive(a);
    }
  }

  lemma {:induction false} StrLessTotal(a: string, b: string)
    requires a != b
    ensures StrLess(a, b) || StrLess(b, a)
    decreases |a|
  {
    if |a| > 0 && |b| > 0 && a[0] == b[0] {
      assert a == [a[0]] + a[1..] && b == [b[0]] + b[1..];
      StrLessTotal(a[1..], b[1..]);
    }
  }

  // ---------------------------------------------------------------------------
  // sorted(params.items())

  /** Keyword arguments never repeat a name. */
  predicate DistinctNames(ps: seq<Param>) {
    forall i, j :: 0 <= i < j < |ps| ==> ps[i].0 != ps[j].0
  }

  /** Strictly ascending by name, the order `sorted` gives items with distinct names. */
  predicate SortedByName(ps: seq<Param>) {
    forall i, j :: 0 <= i < j < |ps| ==> StrLess(ps[i].0, ps[j].0)
  }

  predicate NameAbsent(name: string, ps: seq<Param>) {
    forall i :: 0 <= i < |ps| ==> ps[i].0 != name
  }

  lemma AboveAll(x: Param, s: seq<Param>)
    requires SortedByName(s) && |s| > 0 && StrLess(x.0, s[0].0)
    ensures forall j :: 0 <= j < |s| ==> StrLess(x.0, s[j].0)
  {
    forall j | 0 < j < |s|
      ensures StrLess(x.0, s[j].0)
    {
      StrLessTransitive(x.0, s[0].0, s[j].0);
    }
  }

  lemma InMultisetIsElement(x: Param, s: seq<Param>)
    requires x in multiset(s)
    ensures exists i :: 0 <= i < |s| && s[i] == x
  {
  }

  /** Inserts `x` at its place in a list sorted by name that does not hold its name. */
  function Insert(x: Param, s: seq<Param>): (r: seq<Param>)
    requires SortedByName(s) && NameAbsent(x.0, s)
    ensures SortedByName(r)
    ensures multiset(r) == multiset(s) + multiset{x}
    decreases |s|
  {
    if s == [] then [x]
    else if StrLess(x.0, s[0].0) then
      AboveAll(x, s);
      [x] + s
    else
      var t := Insert(x, s[1..]);
      StrLessTotal(x.0, s[0].0);
      assert s == [s[0]] + s[1..];
      assert forall j :: 0 <= j < |t| ==> StrLess(s[0].0, t[j].0) by {
        forall j | 0 <= j < |t|
          ensures StrLess(s[0].0, t[j].0)
        {
          assert t[j] in multiset(s[1..]) + multiset{x};
          if t[j] != x {
            InMultisetIsElement(t[j], s[1..]);
          }
        }
      }
      [s[0]] + t
  }

  /** `sorted(params.items())`: an insertion sort on the names. */
  function SortByName(ps: seq<Param>): (r: seq<Param>)
    requires DistinctNames(ps)
    ensures SortedByName(r)
    ensures multiset(r) == multiset(ps)
    decreases |ps|
  {
    if ps == [] then []
    else
      var t := SortByName(ps[1..]);
      assert ps == [ps[0]] + ps[1..];
      assert NameAbsent(ps[0].0, t) by {
        forall i | 0 <= i < |t|
          ensures t[i].0 != ps[0].0
        {
          assert t[i] in multiset(ps[1..]);
          InMultisetIsElement(t[i], ps[1..]);
        }
      }
      Insert(ps[0], t)
  }

  lemma MultisetTail(s: seq<Param>)
    requires |s| > 0
    ensures multiset(s[1..]) == multiset(s) - multiset{s[0]}
  {
    assert s == [s[0]] + s[1..];
  }

  /** The first item of a list sorted by name is the least item of the list. */
  lemma HeadIsLeast(a: seq<Param>, x: Param)
    requires SortedByName(a) && x in multiset(a) && x != a[0]
    ensures StrLess(a[0].0, x.0)
  {
    InMultisetIsElement(x, a);
    var i :| 0 <= i < |a| && a[i] == x;
    assert i != 0;
  }

  /** Two lists strictly sorted by name that hold the same items are the same list. */
  lemma {:induction false} SortedPermutationsEqual(a: seq<Param>, b: seq<Param>)
    requires SortedByName(a) && SortedByName(b)
    requires multiset(a) == multiset(b)
    ensures a == b
    decreases |a|
  {
    assert |a| == |multiset(a)| == |multiset(b)| == |b|;
    if |a| > 0 {
      if a[0] != b[0] {
        HeadIsLeast(a, b[0]);
        HeadIsLeast(b, a[0]);
        StrLessAsymmetric(a[0].0, b[0].0);
        assert false;
      }
      MultisetTail(a);
      MultisetTail(b);
      SortedPermutationsEqual(a[1..], b[1..]);
    }
  }

  // ---------------------------------------------------------------------------
  // The repr of the sorted item list

  /** The character of one decimal digit. */
  function DigitChar(d: nat): (c: char)
    requires d < 10
  {
    ('0' as int + d) as char
  }

  /** The number a string of decimal digits denotes, most significant digit first. */
  function DecimalValue(s: string): (v: int)
    decreases |s|
  {
    if s == [] then 0 else 10 * DecimalValue(s[..|s| - 1]) + (s[|s| - 1] as int - '0' as int)
  }

  /** Decimal digits of a natural number, most significant first: the numeral that
      denotes `n`, with no leading zero. */
  function Digits(n: nat): (r: string)
    ensures |r| >= 1 && forall i :: 0 <= i < |r| ==> '0' <= r[i] <= '9'
    ensures r[0] == '0' <==> n == 0
    ensures |r| > 1 ==> r[0] != '0'
    ensures DecimalValue(r) == n
    decreases n
  {
    if n < 10 then [DigitChar(n)]
    else
      var r := Digits(n / 10) + [DigitChar(n % 10)];
      assert r[..|r| - 1] == Digits(n / 10);
      r
  }

  /** `repr` of an `int`: its decimal numeral, after a minus sign when it is negative. */
  function ReprInt(n: int): (r: string)
    ensures |r| >= 1 && (r[0] == '-' <==> n < 0)
    ensures var d := if n < 0 then r[1..] else r;
      && |d| >= 1
      && (forall i :: 0 <= i < |d| ==> '0' <= d[i] <= '9')
      && (|d| > 1 ==> d[0] != '0')
      && DecimalValue(d) == if n < 0 then -n else n
  {
    if n < 0 then
      var r := "-" + Digits(-n);
      assert r[1..] == Digits(-n);
      r
    else Digits(n)
  }

  /** The quote `repr` puts around a string: a double quote when the string holds a
      single quote and no double quote, a single quote otherwise. */
  function QuoteFor(s: string): (q: char) {
    if '\'' in s && '"' !in s then '"' else '\''
  }

  /** One character inside a `str` repr: a backslash and the chosen quote are written
      after a backslash, every other character as itself. */
  function EscapeChar(c: char, q: char): (t: string) {
    if c == '\\' || c == q then ['\\', c] else [c]
  }

  function Escaped(s: string, q: char): (t: string)
    decreases |s|
  {
    if |s| == 0 then "" else EscapeChar(s[0], q) + Escaped(s[1..], q)
  }

  /** `t` can stand between two `q` quotes of a Python string literal: every backslash
      and every `q` in it opens a two-character escape. */
  predicate LiteralBody(t: string, q: char)
    decreases |t|
  {
    if |t| == 0 then true
    else if t[0] == '\\' then |t| >= 2 && LiteralBody(t[2..], q)
    else t[0] != q && LiteralBody(t[1..], q)
  }

  /** The string a literal body denotes: a backslash stands for the character after it. */
  function Unescape(t: string): (s: string)
    ensures |s| <= |t|
    decreases |t|
  {
    if |t| == 0 then ""
    else if t[0] == '\\' && |t| >= 2 then [t[1]] + Unescape(t[2..])
    else [t[0]] + Unescape(t[1..])
  }

  /** Escaping gives a well-formed literal body that reads back as the string. */
  lemma {:induction false} EscapedReadsBack(s: string, q: char)
    ensures LiteralBody(Escaped(s, q), q)
    ensures Unescape(Escaped(s, q)) == s
    decreases |s|
  {
    if |s| > 0 {
      EscapedReadsBack(s[1..], q);
      var t := Escaped(s, q);
      var rest := Escaped(s[1..], q);
      if s[0] == '\\' || s[0] == q {
        assert t == ['\\', s[0]] + rest;
        assert t[2..] == rest;
      } else {
        assert t == [s[0]] + rest;
        assert t[1..] == rest;
      }
    }
  }

  /** A string with no backslash and no `q` is escaped as itself. */
  lemma {:induction false} EscapedPlain(s: string, q: char)
    requires '\\' !in s && q !in s
    ensures Escaped(s, q) == s
    decreases |s|
  {
    if |s| > 0 {
      assert s == [s[0]] + s[1..];
      EscapedPlain(s[1..], q);
    }
  }

  /** `repr` of a `str`: the quote Python chooses, the escaped text and the same quote
      again. */
  function ReprStr(s: string): (r: string)
    ensures |r| >= 2 && r[0] == r[|r| - 1]
    ensures r[0] == '"' <==> '\'' in s && '"' !in s
    ensures r[0] == '\'' <==> !('\'' in s && '"' !in s)
  {
    var q := QuoteFor(s);
    [q] + Escaped(s, q) + [q]
  }

  /** What stands between the quotes of `repr(s)` is a well-formed literal body for that
      quote, and it reads back as `s`; so different strings have different reprs. */
  lemma ReprStrReadsBack(s: string)
    ensures var r := ReprStr(s);
      LiteralBody(r[1..|r| - 1], r[0]) && Unescape(r[1..|r| - 1]) == s
  {
    var q := QuoteFor(s);
    EscapedReadsBack(s, q);
    var r := ReprStr(s);
    assert r[1..|r| - 1] == Escaped(s, q);
  }

  /** By the round trip, `repr` on strings is injective. */
  lemma ReprStrInjective(s: string, t: string)
    requires ReprStr(s) == ReprStr(t)
    ensures s == t
  {
    ReprStrReadsBack(s);
    ReprStrReadsBack(t);
  }

  /** A string with no quote and no backslash is repr'd as itself between single quotes. */
  lemma ReprStrPlain(s: string)
    requires '\'' !in s && '"' !in s && '\\' !in s
    ensures ReprStr(s) == "'" + s + "'"
  {
    EscapedPlain(s, '\'');
  }

  /** `repr` of a keyword-argument value; the three kinds never look alike. */
  function ReprValue(v: ParamValue): (r: string)
    ensures |r| >= 1
    ensures r == "None" <==> v.NoneValue?
    ensures (r[0] == '\'' || r[0] == '"') <==> v.Text?
  {
    match v
    case NoneValue => "None"
    case Text(s) => ReprStr(s)
    case Number(n) => ReprInt(n)
  }

  /** `repr` of one `(name, value)` tuple. */
  function ReprItem(p: Param): (r: string)
    ensures |r| >= 2 && r[0] == '(' && r[|r| - 1] == ')'
  {
    "(" + ReprStr(p.0) + ", " + ReprValue(p.1) + ")"
  }

  function ReprItemsJoined(ps: seq<Param>): (r: string)
    ensures |r| == 0 <==> |ps| == 0
    decreases |ps|
  {
    if |ps| == 0 then ""
    else if |ps| == 1 then ReprItem(ps[0])
    else ReprItem(ps[0]) + ", " + ReprItemsJoined(ps[1..])
  }

  /** `repr` of a list of tuples: bracketed, and `[]` only for the empty list. */
  function ReprItems(ps: seq<Param>): (r: string)
    ensures |r| >= 2 && r[0] == '[' && r[|r| - 1] == ']'
    ensures r == "[]" <==> ps == []
  {
    "[" + ReprItemsJoined(ps) + "]"
  }

  // ---------------------------------------------------------------------------
  // cache_key

  /** The string that is hashed: `f"{query}:{sorted(params.items())}"`, the query, a colon
      and the repr of the items arranged in ascending order of name. */
  function KeyMaterial(query: string, params: seq<Param>): (r: string)
    requires DistinctNames(params)
    ensures exists s :: SortedByName(s) && multiset(s) == multiset(params) && r == query + ":" + ReprItems(s)
  {
    var s := SortByName(params);
    assert SortedByName(s) && multiset(s) == multiset(params);
    query + ":" + ReprItems(s)
  }

  /** `cache_key(query, **params)`, with MD5's hexdigest passed in as `md5`: the digest of
      the query, a colon and the repr of the items in ascending order of name. */
  function CacheKey(md5: string -> Digest, query: string, params: seq<Param>): (r: Digest)
    requires DistinctNames(params)
    ensures exists s :: SortedByName(s) && multiset(s) == multiset(params) && r == md5(query + ":" + ReprItems(s))
  {
    md5(KeyMaterial(query, params))
  }

  /** The key material does not depend on the order the keyword arguments were given in. */
  lemma KeyMaterialOrderIndependent(query: string, p1: seq<Param>, p2: seq<Param>)
    requires DistinctNames(p1) && DistinctNames(p2)
    requires multiset(p1) == multiset(p2)
    ensures KeyMaterial(query, p1) == KeyMaterial(query, p2)
  {
    SortedPermutationsEqual(SortByName(p1), SortByName(p2));
  }

  /** Same query and same keyword arguments in any order: same cache key, whatever the hash. */
  lemma CacheKeyOrderIndependent(md5: string -> Digest, query: string, p1: seq<Param>, p2: seq<Param>)
    requires DistinctNames(p1) && DistinctNames(p2)
    requires multiset(p1) == multiset(p2)
    ensures CacheKey(md5, query, p1) == CacheKey(md5, query, p2)
  {
    KeyMaterialOrderIndependent(query, p1, p2);
  }

  /** `cache_key("weather", engines=None, page=1)` equals `cache_key("weather", page=1, engines=None)`. */
  lemma WeatherKeyIgnoresOrder(md5: string -> Digest)
    ensures CacheKey(md5, "weather", [("engines", NoneValue), ("page", Number(1))])
         == CacheKey(md5, "weather", [("page", Number(1)), ("engines", NoneValue)])
  {
    var p1 := [("engines", NoneValue), ("page", Number(1))];
    var p2 := [("page", Number(1)), ("engines", NoneValue)];
    assert multiset(p1) == multiset(p2);
    CacheKeyOrderIndependent(md5, "weather", p1, p2);
  }

  lemma WeatherItemsSorted()
    ensures DistinctNames([("page", Number(1)), ("engines", NoneValue)])
    ensures SortByName([("page", Number(1)), ("engines", NoneValue)])
         == [("engines", NoneValue), ("page", Number(1))]
  {
    var e, p := ("engines", NoneValue), ("page", Number(1));
    assert !StrLess("page", "engines");
    assert SortByName([e]) == [e];
    assert Insert(p, [e]) == [e] + Insert(p, []);
  }

  lemma EnginesNameRepr()
    ensures ReprStr("engines") == "'" + "engines" + "'"
  {
    ReprStrPlain("engines");
  }

  lemma PageNameRepr()
    ensures ReprStr("page") == "'" + "page" + "'"
  {
    ReprStrPlain("page");
  }

  lemma ReprItemOf(name: string, v: ParamValue, rn: string, rv: string)
    requires ReprStr(name) == rn && ReprValue(v) == rv
    ensures ReprItem((name, v)) == "(" + rn + ", " + rv + ")"
  {
  }

  lemma EnginesNoneRepr()
    ensures ReprItem(("engines", NoneValue)) == "(" + ("'" + "engines" + "'") + ", " + "None" + ")"
  {
    EnginesNameRepr();
    ReprItemOf("engines", NoneValue, "'" + "engines" + "'", "None");
  }

  lemma PageOneRepr()
    ensures ReprItem(("page", Number(1))) == "(" + ("'" + "page" + "'") + ", " + "1" + ")"
  {
    PageNameRepr();
    assert ReprValue(Number(1)) == [DigitChar(1)] == "1";
    ReprItemOf("page", Number(1), "'" + "page" + "'", "1");
  }

  lemma WeatherItemLiterals()
    ensures "(" + ("'" + "engines" + "'") + ", " + "None" + ")" == "('engines', None)"
    ensures "(" + ("'" + "page" + "'") + ", " + "1" + ")" == "('page', 1)"
  {
  }

  lemma WeatherItemsRepr()
    ensures ReprItems([("engines", NoneValue), ("page", Number(1))])
         == "[" + "('engines', None)" + ", " + "('page', 1)" + "]"
  {
    var e, p := ("engines", NoneValue), ("page", Number(1));
    EnginesNoneRepr();
    PageOneRepr();
    WeatherItemLiterals();
    assert ReprItemsJoined([e, p]) == ReprItem(e) + ", " + ReprItemsJoined([p]);
  }

  /** The material hashed for that call is the query, a colon and the items sorted by name. */
  lemma WeatherKeyMaterial()
    ensures KeyMaterial("weather", [("page", Number(1)), ("engines", NoneValue)])
         == "weather" + ":" + ("[" + "('engines', None)" + ", " + "('page', 1)" + "]")
  {
    WeatherItemsSorted();
    WeatherItemsRepr();
  }
}
