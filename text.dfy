/**
 * Text helpers the client relies on when it builds request paths and
 * exception messages: the decimal rendering that C# string interpolation
 * gives an integer, and the `name=value&name=value` shape of a query string.
 * Each rendering comes with the parser that undoes it.
 */
module Text {

  datatype Option<T> = None | Some(value: T)

  predicate IsDigit(c: char) {
    '0' <= c <= '9'
  }

  predicate AllDigits(s: string) {
    forall i :: 0 <= i < |s| ==> IsDigit(s[i])
  }

  function DigitChar(d: nat): (c: char)
    requires d < 10
    ensures IsDigit(c) && c as int - '0' as int == d
  {
    ('0' as int + d) as char
  }

  /** Decimal digits of `n`, most significant first, without leading zeros. */
  function NatToDecimal(n: nat): (s: string)
    ensures |s| >= 1 && AllDigits(s)
    ensures |s| > 1 ==> s[0] != '0'
    decreases n
  {
    if n < 10 then [DigitChar(n)] else NatToDecimal(n / 10) + [DigitChar(n % 10)]
  }

  /** The number a string of decimal digits denotes. */
  function DecimalValue(s: string): nat
    requires AllDigits(s)
  {
    if s == [] then 0 else DecimalValue(s[..|s| - 1]) * 10 + (s[|s| - 1] as int - '0' as int)
  }

  lemma {:induction false} DecimalRoundTrip(n: nat)
    ensures DecimalValue(NatToDecimal(n)) == n
    decreases n
  {
    if n >= 10 {
      var s := NatToDecimal(n);
      assert s[..|s| - 1] == NatToDecimal(n / 10);
      DecimalRoundTrip(n / 10);
    }
  }

  /**
   * How `{i}` renders an `int` inside an interpolated string, assuming the
   * current culture's negative sign is `-` (as in the invariant culture).
   */
  function IntToDecimal(i: int): (s: string)
    ensures |s| >= 1
    ensures s[0] == '-' <==> i < 0
    ensures i >= 0 ==> AllDigits(s)
    ensures forall k :: 0 <= k < |s| ==> IsDigit(s[k]) || (k == 0 && s[k] == '-')
  {
    if i < 0 then "-" + NatToDecimal(-i) else NatToDecimal(i)
  }

  /** A rendered number never contains the query string's delimiters. */
  lemma DecimalHasNoDelimiters(i: int)
    ensures '?' !in IntToDecimal(i) && '&' !in IntToDecimal(i) && '=' !in IntToDecimal(i)
    ensures i >= 0 ==> '?' !in NatToDecimal(i) && '&' !in NatToDecimal(i) && '=' !in NatToDecimal(i)
  {
  }

  /** Reads back an optional minus sign followed by at least one digit. */
  function ParseInt(s: string): Option<int> {
    if |s| > 1 && s[0] == '-' && AllDigits(s[1..]) then Some(-(DecimalValue(s[1..]) as int))
    else if |s| > 0 && AllDigits(s) then Some(DecimalValue(s))
    else None
  }

  lemma IntRoundTrip(i: int)
    ensures ParseInt(IntToDecimal(i)) == Some(i)
  {
    if i < 0 {
      var s := IntToDecimal(i);
      assert s[1..] == NatToDecimal(-i);
      DecimalRoundTrip(-i);
    } else {
      DecimalRoundTrip(i);
    }
  }

  /** Position of the first `sep` in `s`. */
  function IndexOf(s: string, sep: char): (k: nat)
    requires sep in s
    ensures k < |s| && s[k] == sep && sep !in s[..k]
  {
    if s[0] == sep then 0 else 1 + IndexOf(s[1..], sep)
  }

  /** Cuts `s` at every `sep`; the pieces never contain `sep`. */
  function Split(s: string, sep: char): (parts: seq<string>)
    ensures |parts| >= 1
    ensures forall p :: p in parts ==> sep !in p
    decreases |s|
  {
    if sep !in s then [s]
    else
      var k := IndexOf(s, sep);
      [s[..k]] + Split(s[k + 1..], sep)
  }

  /** Glues `parts` together with `sep` between neighbours. */
  function Join(parts: seq<string>, sep: char): string
    requires |parts| >= 1
  {
    if |parts| == 1 then parts[0] else parts[0] + [sep] + Join(parts[1..], sep)
  }

  lemma {:induction false} IndexOfAfterFree(a: string, b: string, sep: char)
    requires sep !in a
    ensures sep in a + [sep] + b && IndexOf(a + [sep] + b, sep) == |a|
    decreases |a|
  {
    var s := a + [sep] + b;
    assert s[|a|] == sep;
    if a != [] {
      assert a[0] in a;
      assert s[1..] == a[1..] + [sep] + b;
      IndexOfAfterFree(a[1..], b, sep);
    }
  }

  lemma {:induction false} SplitJoin(parts: seq<string>, sep: char)
    requires |parts| >= 1
    requires forall p :: p in parts ==> sep !in p
    ensures Split(Join(parts, sep), sep) == parts
    decreases |parts|
  {
    if |parts| > 1 {
      var rest := Join(parts[1..], sep);
      var s := parts[0] + [sep] + rest;
      IndexOfAfterFree(parts[0], rest, sep);
      assert s[..|parts[0]|] == parts[0];
      assert s[|parts[0]| + 1..] == rest;
      SplitJoin(parts[1..], sep);
      assert parts == [parts[0]] + parts[1..];
    } else {
      assert parts[0] in parts;
    }
  }

  /** One `name=value` pair of a query string. */
  datatype Parameter = Parameter(name: string, value: string)

  function Pair(p: Parameter): string {
    p.name + "=" + p.value
  }

  /** `name1=value1&name2=value2&...`, in the order given. */
  function QueryString(ps: seq<Parameter>): string
    requires |ps| >= 1
  {
    Join(seq(|ps|, i requires 0 <= i < |ps| => Pair(ps[i])), '&')
  }

  /** Splits a `name=value` piece at its first `=`. */
  function ParsePair(s: string): Parameter {
    if '=' in s then
      var k := IndexOf(s, '=');
      Parameter(s[..k], s[k + 1..])
    else Parameter(s, "")
  }

  function ParseQuery(q: string): seq<Parameter> {
    var pieces := Split(q, '&');
    seq(|pieces|, i requires 0 <= i < |pieces| => ParsePair(pieces[i]))
  }

  /** Names and values that the query syntax can carry without ambiguity. */
  predicate Plain(p: Parameter) {
    '=' !in p.name && '&' !in p.name && '&' !in p.value
  }

  lemma ParsePairOfPair(p: Parameter)
    requires '=' !in p.name
    ensures ParsePair(Pair(p)) == p
  {
    IndexOfAfterFree(p.name, p.value, '=');
    var s := Pair(p);
    assert s[..|p.name|] == p.name;
    assert s[|p.name| + 1..] == p.value;
  }

  lemma QueryRoundTrip(ps: seq<Parameter>)
    requires |ps| >= 1
    requires forall i :: 0 <= i < |ps| ==> Plain(ps[i])
    ensures ParseQuery(QueryString(ps)) == ps
  {
    var pieces := seq(|ps|, i requires 0 <= i < |ps| => Pair(ps[i]));
    forall p | p in pieces ensures '&' !in p {
      var i :| 0 <= i < |pieces| && pieces[i] == p;
      assert Plain(ps[i]);
    }
    SplitJoin(pieces, '&');
    forall i | 0 <= i < |ps| ensures ParsePair(pieces[i]) == ps[i] {
      assert Plain(ps[i]);
      ParsePairOfPair(ps[i]);
    }
  }

  lemma {:induction false} JoinSnoc(parts: seq<string>, x: string, sep: char)
    requires |parts| >= 1
    ensures Join(parts + [x], sep) == Join(parts, sep) + [sep] + x
    decreases |parts|
  {
    if |parts| > 1 {
      assert (parts + [x])[1..] == parts[1..] + [x];
      JoinSnoc(parts[1..], x, sep);
    } else {
      assert (parts + [x])[1..] == [x];
    }
  }

  lemma QuerySnoc(ps: seq<Parameter>, p: Parameter)
    requires |ps| >= 1
    ensures QueryString(ps + [p]) == QueryString(ps) + "&" + Pair(p)
  {
    var all := ps + [p];
    var pieces := seq(|ps|, i requires 0 <= i < |ps| => Pair(ps[i]));
    assert seq(|all|, i requires 0 <= i < |all| => Pair(all[i])) == pieces + [Pair(p)];
    JoinSnoc(pieces, Pair(p), '&');
  }

  /**
   * Interpolating `{lit}{value}` after a query, where the literal `lit` is
   * `&name=`, appends the parameter `name=value` to that query.
   */
  lemma AppendParameter(pre: string, ps: seq<Parameter>, lit: string, name: string, value: string)
    requires |ps| >= 1
    requires lit == "&" + name + "="
    ensures pre + QueryString(ps) + lit + value == pre + QueryString(ps + [Parameter(name, value)])
  {
    QuerySnoc(ps, Parameter(name, value));
    var q := QueryString(ps);
    assert pre + q + lit == pre + (q + "&" + name + "=");
  }

  /** Interpolating `{path}?{name}={value}` starts a one-parameter query. */
  lemma StartQuery(lit: string, pre: string, name: string, value: string)
    requires lit == pre + name + "="
    ensures lit + value == pre + QueryString([Parameter(name, value)])
  {
    var pieces := seq(1, i requires 0 <= i < 1 => Pair([Parameter(name, value)][i]));
    assert pieces == [Pair(Parameter(name, value))];
  }

  /** A request target `path?query`, split at its first `?`. */
  function SplitTarget(target: string): (string, seq<Parameter>) {
    if '?' in target then
      var k := IndexOf(target, '?');
      (target[..k], ParseQuery(target[k + 1..]))
    else (target, [])
  }

  lemma QueryOfTwo(a: Parameter, b: Parameter)
    ensures QueryString([a, b]) == Pair(a) + "&" + Pair(b)
  {
    QuerySnoc([a], b);
    assert [a] + [b] == [a, b];
    assert seq(1, i requires 0 <= i < 1 => Pair([a][i])) == [Pair(a)];
  }

  /**
   * A value holding `&` is not carried by the query syntax: the text after
   * the `&` reads back as a parameter of its own, with an empty value.
   */
  lemma AmpersandInValue(a: Parameter, head: string, tail: string, b: Parameter)
    requires a.value == head + "&" + tail
    requires '=' !in a.name && '&' !in a.name && '&' !in head && '&' !in tail && '=' !in tail
    requires Plain(b)
    ensures ParseQuery(QueryString([a, b])) == [Parameter(a.name, head), Parameter(tail, ""), b]
  {
    var first := Pair(Parameter(a.name, head));
    var pieces := [first, tail, Pair(b)];
    assert QueryString([a, b]) == Join(pieces, '&') by {
      QueryOfTwo(a, b);
      JoinThree(first, tail, Pair(b), '&');
      assert Pair(a) == first + "&" + tail;
    }
    assert Split(Join(pieces, '&'), '&') == pieces by {
      assert '&' !in first && '&' !in Pair(b);
      SplitJoin(pieces, '&');
    }
    assert ParsePair(first) == Parameter(a.name, head) by {
      ParsePairOfPair(Parameter(a.name, head));
    }
    assert ParsePair(Pair(b)) == b by {
      ParsePairOfPair(b);
    }
  }

  lemma JoinThree(x: string, y: string, z: string, sep: char)
    ensures Join([x, y, z], sep) == x + [sep] + y + [sep] + z
  {
    assert [x, y, z][1..] == [y, z];
    assert [y, z][1..] == [z];
    assert Join([y, z], sep) == y + [sep] + z;
    assert x + [sep] + (y + [sep] + z) == x + [sep] + y + [sep] + z;
  }

  /** A path without `?` is cut off exactly, whatever the query holds. */
  lemma SplitTargetAtPath(path: string, query: string)
    requires '?' !in path
    ensures SplitTarget(path + "?" + query) == (path, ParseQuery(query))
  {
    IndexOfAfterFree(path, query, '?');
    var t := path + "?" + query;
    assert t[..|path|] == path;
    assert t[|path| + 1..] == query;
  }

  lemma TargetRoundTrip(path: string, ps: seq<Parameter>)
    requires '?' !in path && |ps| >= 1
    requires forall i :: 0 <= i < |ps| ==> Plain(ps[i])
    ensures SplitTarget(path + "?" + QueryString(ps)) == (path, ps)
  {
    var q := QueryString(ps);
    IndexOfAfterFree(path, q, '?');
    var t := path + "?" + q;
    assert t[..|path|] == path;
    assert t[|path| + 1..] == q;
    QueryRoundTrip(ps);
  }
}
