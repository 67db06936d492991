/**
 * JSON as the cache layer sees it: the documents that are cached, the
 * truthiness test the readers apply to a cached document, and the text
 * `JSON.stringify` produces for an argument list of strings, which is the
 * last part of every generated cache key.
 */
module JsonText {

  /** A JSON document. Numbers are integers; objects keep their field order. */
  datatype Json =
    | JNull
    | JBool(b: bool)
    | JNum(n: int)
    | JStr(s: string)
    | JArr(items: seq<Json>)
    | JObj(fields: seq<(string, Json)>)

  /** JavaScript truthiness of a parsed document: `if (cached)` in every reader. */
  predicate Truthy(j: Json)
  {
    match j
    case JNull => false
    case JBool(b) => b
    case JNum(n) => n != 0
    case JStr(s) => s != ""
    case JArr(_) => true
    case JObj(_) => true
  }

  predicate IsControl(c: char)
  {
    c as int < 0x20
  }

  /** A character that `JSON.stringify` copies unchanged into a string literal. */
  predicate PlainChar(c: char)
  {
    c != '"' && c != '\\' && !IsControl(c)
  }

  /** A string that needs no escaping: what the hand-written keys `["${id}"]` silently assume. */
  predicate Plain(s: string)
  {
    forall i :: 0 <= i < |s| ==> PlainChar(s[i])
  }

  function HexDigit(n: nat): (c: char)
    requires n < 16
    ensures PlainChar(c) && c != 'u'
  {
    if n < 10 then ('0' as int + n) as char else ('a' as int + n - 10) as char
  }

  /** How `JSON.stringify` writes one character inside a string literal. */
  function EscapeChar(c: char): string
  {
    if c == '"' then "\\\""
    else if c == '\\' then "\\\\"
    else if c == 8 as char then "\\b"
    else if c == 9 as char then "\\t"
    else if c == 10 as char then "\\n"
    else if c == 12 as char then "\\f"
    else if c == 13 as char then "\\r"
    else if IsControl(c) then "\\u00" + [HexDigit(c as int / 16), HexDigit(c as int % 16)]
    else [c]
  }

  function Escape(s: string): string
  {
    if s == [] then [] else EscapeChar(s[0]) + Escape(s[1..])
  }

  /** `JSON.stringify(s)` for a string `s`. */
  function Quote(s: string): string
  {
    "\"" + Escape(s) + "\""
  }

  /** The elements of `JSON.stringify(args)` for a list of strings, without the brackets. */
  function QuotedList(args: seq<string>): string
  {
    if |args| == 0 then ""
    else if |args| == 1 then Quote(args[0])
    else Quote(args[0]) + "," + QuotedList(args[1..])
  }

  /** `JSON.stringify(args)` for a list of strings. */
  function Stringify(args: seq<string>): string
  {
    "[" + QuotedList(args) + "]"
  }

  /** A string without special characters is written as it is. */
  lemma {:induction false} EscapePlain(s: string)
    requires Plain(s)
    ensures Escape(s) == s
  {
    if s != [] {
      assert PlainChar(s[0]);
      EscapePlain(s[1..]);
      assert s == [s[0]] + s[1..];
    }
  }

  /** A plain character is copied; any other one becomes an escape starting with a backslash. */
  lemma EscapeCharShape(c: char)
    ensures PlainChar(c) ==> EscapeChar(c) == [c]
    ensures !PlainChar(c) ==> |EscapeChar(c)| >= 2 && EscapeChar(c)[0] == '\\'
  {
  }

  /** Escaping never makes a string plain: every escape starts with a backslash. */
  lemma {:induction false} EscapeNonPlain(s: string)
    requires !Plain(s)
    ensures !Plain(Escape(s))
  {
    assert s != [];
    var e := Escape(s);
    var head := EscapeChar(s[0]);
    assert e == head + Escape(s[1..]);
    EscapeCharShape(s[0]);
    if PlainChar(s[0]) {
      var i :| 0 <= i < |s| && !PlainChar(s[i]);
      assert !PlainChar(s[1..][i - 1]);
      EscapeNonPlain(s[1..]);
      var j :| 0 <= j < |Escape(s[1..])| && !PlainChar(Escape(s[1..])[j]);
      assert e[j + 1] == Escape(s[1..])[j];
    } else {
      assert e[0] == head[0];
    }
  }

  /** Escaping lengthens exactly the strings that are not plain. */
  lemma {:induction false} EscapeGrows(s: string)
    ensures |Escape(s)| >= |s|
    ensures !Plain(s) ==> |Escape(s)| > |s|
  {
    if s != [] {
      EscapeGrows(s[1..]);
      if PlainChar(s[0]) && !Plain(s) {
        var i :| 0 <= i < |s| && !PlainChar(s[i]);
        assert !PlainChar(s[1..][i - 1]);
      }
    }
  }

  /** The argument list of a one-argument call is written `["…"]`. */
  lemma StringifySingle(x: string)
    ensures Stringify([x]) == "[\"" + Escape(x) + "\"]"
  {
  }

  /** No escape sequence is a proper prefix of another: the code of the first character is read off uniquely. */
  lemma EscapeCharPrefix(a: char, b: char, x: string, y: string)
    requires EscapeChar(a) + x == EscapeChar(b) + y
    ensures a == b && x == y
  {
    var ea, eb := EscapeChar(a), EscapeChar(b);
    assert (ea + x)[0] == ea[0] && (eb + y)[0] == eb[0];
    if PlainChar(a) || PlainChar(b) {
      assert ea[0] == eb[0];
      assert PlainChar(a) && PlainChar(b);
    } else {
      assert (ea + x)[1] == ea[1] && (eb + y)[1] == eb[1];
      if IsControl(a) && a !in {8 as char, 9 as char, 10 as char, 12 as char, 13 as char} {
        assert ea[1] == 'u' && eb[1] == 'u';
        assert (ea + x)[4] == ea[4] && (eb + y)[4] == eb[4];
        assert (ea + x)[5] == ea[5] && (eb + y)[5] == eb[5];
        assert a as int == 16 * (a as int / 16) + a as int % 16;
      }
    }
    assert |ea| == |eb|;
    assert x == (ea + x)[|ea|..];
    assert y == (eb + y)[|eb|..];
  }

  /** Taking the same prefix off two equal strings leaves equal strings. */
  lemma CancelPrefix(p: string, q: string, s: string, t: string)
    requires p + s == q + t && |p| == |q|
    ensures p == q && s == t
  {
    assert p == (p + s)[..|p|] && q == (q + t)[..|q|];
    assert s == (p + s)[|p|..] && t == (q + t)[|q|..];
  }

  /** A non-empty escaped string starts with the escape of its first character, never with a quote. */
  lemma EscapeHead(s: string, y: string)
    requires s != []
    ensures Escape(s) + y == EscapeChar(s[0]) + (Escape(s[1..]) + y)
    ensures |Escape(s) + y| > 0 && (Escape(s) + y)[0] != '"'
  {
    var e := EscapeChar(s[0]);
    assert e[0] != '"';
    assert (e + (Escape(s[1..]) + y))[0] == e[0];
  }

  /** An escaped string ends before the first unescaped quote. */
  lemma {:induction false} EscapePrefix(a: string, b: string, x: string, y: string)
    requires Escape(a) + x == Escape(b) + y
    requires |x| > 0 && x[0] == '"' && |y| > 0 && y[0] == '"'
    ensures a == b && x == y
  {
    if a == [] {
      assert Escape(a) + x == x;
      if b == [] {
        assert Escape(b) + y == y;
      } else {
        EscapeHead(b, y);
        assert false;
      }
    } else if b == [] {
      assert Escape(b) + y == y;
      EscapeHead(a, x);
      assert false;
    } else {
      EscapeHead(a, x);
      EscapeHead(b, y);
      EscapeCharPrefix(a[0], b[0], Escape(a[1..]) + x, Escape(b[1..]) + y);
      EscapePrefix(a[1..], b[1..], x, y);
      assert a == [a[0]] + a[1..] && b == [b[0]] + b[1..];
    }
  }

  lemma QuoteSplit(a: string, x: string)
    ensures Quote(a) + x == "\"" + (Escape(a) + ("\"" + x))
  {
  }

  /** A quoted string is a prefix code: it determines the string and where it ends. */
  lemma QuotePrefix(a: string, b: string, x: string, y: string)
    requires Quote(a) + x == Quote(b) + y
    ensures a == b && x == y
  {
    QuoteSplit(a, x);
    QuoteSplit(b, y);
    CancelPrefix("\"", "\"", Escape(a) + ("\"" + x), Escape(b) + ("\"" + y));
    EscapePrefix(a, b, "\"" + x, "\"" + y);
    CancelPrefix("\"", "\"", x, y);
  }

  /** After the first element of a list comes `,` and the rest, or what follows the list. */
  function ListRest(a: seq<string>, x: string): string
    requires |a| > 0
  {
    if |a| == 1 then x else "," + (QuotedList(a[1..]) + x)
  }

  lemma QuotedListFirst(a: seq<string>, x: string)
    requires |a| > 0
    ensures QuotedList(a) + x == Quote(a[0]) + ListRest(a, x)
  {
    if |a| > 1 {
      var q, t := Quote(a[0]), QuotedList(a[1..]);
      assert QuotedList(a) == q + "," + t;
      Regroup(q, t, x);
    }
  }

  lemma Regroup(q: string, t: string, x: string)
    ensures q + "," + t + x == q + ("," + (t + x))
  {
  }

  /** A non-empty list starts with the opening quote of its first element. */
  lemma QuotedListStart(a: seq<string>, x: string)
    requires |a| > 0
    ensures |QuotedList(a) + x| > 0 && (QuotedList(a) + x)[0] == '"'
  {
    QuotedListFirst(a, x);
    var q := Quote(a[0]);
    assert (q + ListRest(a, x))[0] == q[0];
  }

  lemma {:induction false} QuotedListPrefix(a: seq<string>, b: seq<string>, x: string, y: string)
    requires QuotedList(a) + x == QuotedList(b) + y
    requires |x| > 0 && x[0] == ']' && |y| > 0 && y[0] == ']'
    ensures a == b && x == y
    decreases |a|, 1
  {
    if |a| == 0 {
      assert QuotedList(a) + x == x;
      if |b| == 0 {
        assert QuotedList(b) + y == y;
      } else {
        QuotedListStart(b, y);
        assert false;
      }
    } else if |b| == 0 {
      assert QuotedList(b) + y == y;
      QuotedListStart(a, x);
      assert false;
    } else {
      QuotedListCons(a, b, x, y);
    }
  }

  lemma {:induction false} QuotedListCons(a: seq<string>, b: seq<string>, x: string, y: string)
    requires |a| > 0 && |b| > 0
    requires QuotedList(a) + x == QuotedList(b) + y
    requires |x| > 0 && x[0] == ']' && |y| > 0 && y[0] == ']'
    ensures a == b && x == y
    decreases |a|, 0
  {
    var ra, rb := ListRest(a, x), ListRest(b, y);
    QuotedListFirst(a, x);
    QuotedListFirst(b, y);
    QuotePrefix(a[0], b[0], ra, rb);
    if |a| > 1 && |b| > 1 {
      CancelPrefix(",", ",", QuotedList(a[1..]) + x, QuotedList(b[1..]) + y);
      QuotedListPrefix(a[1..], b[1..], x, y);
      assert a == [a[0]] + a[1..] && b == [b[0]] + b[1..];
    } else if |a| == 1 && |b| == 1 {
      assert a == [a[0]] && b == [b[0]];
    } else {
      assert false;
    }
  }

  /** Distinct argument lists are written differently. */
  lemma StringifyInjective(a: seq<string>, b: seq<string>)
    requires Stringify(a) == Stringify(b)
    ensures a == b
  {
    assert Stringify(a) == "[" + (QuotedList(a) + "]");
    assert Stringify(b) == "[" + (QuotedList(b) + "]");
    CancelPrefix("[", "[", QuotedList(a) + "]", QuotedList(b) + "]");
    QuotedListPrefix(a, b, "]", "]");
  }
}
