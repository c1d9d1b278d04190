/** Route templates in the framework's `:name` syntax rewritten to OpenAPI
    path templates `{name}` (Path Templating, OpenAPI Specification 3.0).

    The source does this with the global replace of `/:[A-Za-z1-9]+/`: the
    leftmost `:` followed by at least one name character, with the longest
    run of name characters, becomes `{run}`, and scanning goes on after it.
 */
module PathTemplate {

  /** The character class `[A-Za-z1-9]` of the source's pattern. */
  predicate IsNameChar(c: char) {
    'A' <= c <= 'Z' || 'a' <= c <= 'z' || '1' <= c <= '9'
  }

  /** Length of the run of name characters that starts `s`. */
  function NameRun(s: string): (n: nat)
    ensures n <= |s|
  {
    if |s| > 0 && IsNameChar(s[0]) then 1 + NameRun(s[1..]) else 0
  }

  /** The run is maximal: all its characters are name characters and the
      character after it is not. */
  lemma {:induction false} NameRunMaximal(s: string)
    ensures forall i :: 0 <= i < NameRun(s) ==> IsNameChar(s[i])
    ensures NameRun(s) < |s| ==> !IsNameChar(s[NameRun(s)])
    decreases |s|
  {
    if |s| > 0 && IsNameChar(s[0]) {
      NameRunMaximal(s[1..]);
    }
  }

  /** The rewrite of builder.ts: every maximal `:run` becomes `{run}`. */
  function ToOpenApiPath(route: string): string
    decreases |route|
  {
    if |route| == 0 then ""
    else if route[0] == ':' && NameRun(route[1..]) > 0 then
      var n := NameRun(route[1..]);
      "{" + route[1..1 + n] + "}" + ToOpenApiPath(route[1 + n..])
    else
      [route[0]] + ToOpenApiPath(route[1..])
  }

  /** Reading an OpenAPI path template back: `{run}` becomes `:run`. */
  function FromOpenApiPath(path: string): string
    decreases |path|
  {
    if |path| == 0 then ""
    else if path[0] == '{' && 0 < NameRun(path[1..]) && 1 + NameRun(path[1..]) < |path|
            && path[1 + NameRun(path[1..])] == '}' then
      var n := NameRun(path[1..]);
      ":" + path[1..1 + n] + FromOpenApiPath(path[2 + n..])
    else
      [path[0]] + FromOpenApiPath(path[1..])
  }

  /** No `:` in `s` is followed by a name character: nothing left to rewrite. */
  predicate NoColonParams(s: string) {
    forall i :: 0 <= i < |s| - 1 && s[i] == ':' ==> !IsNameChar(s[i + 1])
  }

  predicate NoColon(s: string) {
    forall i :: 0 <= i < |s| ==> s[i] != ':'
  }

  predicate IsName(s: string) {
    |s| > 0 && forall i :: 0 <= i < |s| ==> IsNameChar(s[i])
  }

  predicate NoBraces(s: string) {
    forall i :: 0 <= i < |s| ==> s[i] != '{' && s[i] != '}'
  }

  /** The characters of `s` other than the template punctuation `:`, `{`, `}`. */
  function Literals(s: string): string
    decreases |s|
  {
    if |s| == 0 then ""
    else if s[0] == ':' || s[0] == '{' || s[0] == '}' then Literals(s[1..])
    else [s[0]] + Literals(s[1..])
  }

  lemma {:induction false} LiteralsAppend(a: string, b: string)
    ensures Literals(a + b) == Literals(a) + Literals(b)
    decreases |a|
  {
    if |a| > 0 {
      assert (a + b)[1..] == a[1..] + b;
      LiteralsAppend(a[1..], b);
    } else {
      assert a + b == b;
    }
  }

  /** A run of name characters has no template punctuation to drop. */
  lemma {:induction false} LiteralsOfName(s: string)
    requires forall i :: 0 <= i < |s| ==> IsNameChar(s[i])
    ensures Literals(s) == s
    decreases |s|
  {
    if |s| > 0 {
      LiteralsOfName(s[1..]);
    }
  }

  /** The rewrite starts with `{` or with the first input character. */
  lemma {:induction false} FirstCharOfRewrite(route: string)
    requires |route| > 0
    ensures |ToOpenApiPath(route)| > 0
    ensures ToOpenApiPath(route)[0] == '{' || ToOpenApiPath(route)[0] == route[0]
  {
  }

  /** Characters other than `:` are copied. */
  lemma {:induction false} RewritePlain(lit: string, t: string)
    requires NoColon(lit)
    ensures ToOpenApiPath(lit + t) == lit + ToOpenApiPath(t)
    decreases |lit|
  {
    if |lit| == 0 {
      assert lit + t == t;
    } else {
      assert (lit + t)[1..] == lit[1..] + t;
      RewritePlain(lit[1..], t);
      assert lit == [lit[0]] + lit[1..];
    }
  }

  /** A `:` with a maximal run of name characters becomes `{run}`. */
  lemma {:induction false} RewriteParam(name: string, t: string)
    requires IsName(name)
    requires |t| == 0 || !IsNameChar(t[0])
    ensures ToOpenApiPath(":" + name + t) == "{" + name + "}" + ToOpenApiPath(t)
  {
    var s := ":" + name + t;
    assert s[1..] == name + t;
    NameRunOfPrefix(name, t);
    assert s[1..1 + |name|] == name;
    assert s[1 + |name|..] == t;
  }

  /** A parameter followed by a literal: `:y c` becomes `{y}c`. */
  lemma {:induction false} RewriteLastParam(y: string, c: string)
    requires NoColon(c) && IsName(y) && (|c| == 0 || !IsNameChar(c[0]))
    ensures ToOpenApiPath(":" + y + c) == "{" + y + "}" + c
  {
    RewritePlain(c, "");
    assert c + "" == c;
    RewriteParam(y, c);
  }

  /** A literal, a parameter and the rewritten rest: `b:y c` becomes `b{y}c`. */
  lemma {:induction false} RewriteLiteralThenParam(b: string, y: string, c: string)
    requires NoColon(b) && NoColon(c) && IsName(y) && (|c| == 0 || !IsNameChar(c[0]))
    ensures ToOpenApiPath(b + ":" + y + c) == b + "{" + y + "}" + c
  {
    RewriteLastParam(y, c);
    RewritePlain(b, ":" + y + c);
    assert b + ":" + y + c == b + (":" + y + c);
    assert b + "{" + y + "}" + c == b + ("{" + y + "}" + c);
  }

  lemma {:induction false} RewriteTwoParamsNested(a: string, x: string, b: string, y: string, c: string)
    requires NoColon(a) && NoColon(b) && NoColon(c) && IsName(x) && IsName(y)
    requires |b| > 0 && !IsNameChar(b[0]) && (|c| == 0 || !IsNameChar(c[0]))
    ensures ToOpenApiPath(a + (":" + x + (b + ":" + y + c))) == a + ("{" + x + "}" + (b + "{" + y + "}" + c))
  {
    var t1 := b + ":" + y + c;
    var u1 := b + "{" + y + "}" + c;
    RewriteLiteralThenParam(b, y, c);
    assert ToOpenApiPath(":" + x + t1) == "{" + x + "}" + u1 by {
      assert t1[0] == b[0];
      RewriteParam(x, t1);
    }
    RewritePlain(a, ":" + x + t1);
  }

  /** A route with two parameters, `a:x b:y c`, becomes `a{x}b{y}c`. */
  lemma {:induction false} RewriteTwoParams(a: string, x: string, b: string, y: string, c: string)
    requires NoColon(a) && NoColon(b) && NoColon(c) && IsName(x) && IsName(y)
    requires |b| > 0 && !IsNameChar(b[0]) && (|c| == 0 || !IsNameChar(c[0]))
    ensures ToOpenApiPath(a + ":" + x + b + ":" + y + c) == a + "{" + x + "}" + b + "{" + y + "}" + c
  {
    RewriteTwoParamsNested(a, x, b, y, c);
    var l := a + ":" + x + b + ":" + y + c;
    assert l == a + (":" + x + (b + ":" + y + c)) by {
      SixPieces(a, ":", x, b, ":", y, c);
    }
    var u := a + "{" + x + "}" + b + "{" + y + "}" + c;
    assert u == a + ("{" + x + "}" + (b + "{" + y + "}" + c)) by {
      SixPieces(a, "{", x, "}" + b, "{", y, "}" + c);
    }
  }

  lemma {:induction false} SixPieces(a: string, p: string, x: string, b: string, q: string, y: string, c: string)
    ensures a + p + x + b + q + y + c == a + (p + x + (b + q + y + c))
  {
  }

  /** The example given in builder.ts, `/app/home/test/:id/:name/detail`,
      written as the concatenation of its literal and parameter pieces. */
  lemma {:induction false} RewriteExample()
    ensures ToOpenApiPath("/app/home/test/" + ":" + "id" + "/" + ":" + "name" + "/detail")
         == "/app/home/test/" + "{" + "id" + "}" + "/" + "{" + "name" + "}" + "/detail"
  {
    RewriteTwoParams("/app/home/test/", "id", "/", "name", "/detail");
  }

  /** `0`, `_` and `-` are outside the name class, so each ends a
      parameter name. */
  lemma {:induction false} RewriteEndsNameAtNonNameChars()
    ensures ToOpenApiPath(":" + "id" + "0") == "{" + "id" + "}" + "0"
    ensures ToOpenApiPath(":" + "user" + "_id") == "{" + "user" + "}" + "_id"
    ensures ToOpenApiPath(":" + "a" + "-b") == "{" + "a" + "}" + "-b"
  {
    assert ToOpenApiPath(":" + "id" + "0") == "{" + "id" + "}" + "0" by {
      RewritePlain("0", "");
      RewriteParam("id", "0");
      assert "0" + "" == "0";
    }
    assert ToOpenApiPath(":" + "user" + "_id") == "{" + "user" + "}" + "_id" by {
      RewritePlain("_id", "");
      RewriteParam("user", "_id");
      assert "_id" + "" == "_id";
    }
    RewritePlain("-b", "");
    RewriteParam("a", "-b");
    assert "-b" + "" == "-b";
  }

  /** A `:` with no name character after it is kept, and the rewrite goes on
      with the rest of the route. */
  lemma {:induction false} RewriteKeepsBareColon(t: string)
    requires |t| == 0 || !IsNameChar(t[0])
    ensures ToOpenApiPath(":" + t) == ":" + ToOpenApiPath(t)
  {
    assert (":" + t)[1..] == t;
  }

  /** Example: `"::"` is left as it is. */
  lemma {:induction false} RewriteKeepsDoubleColon()
    ensures ToOpenApiPath("::") == "::"
  {
    RewriteKeepsBareColon(":");
    RewriteKeepsBareColon("");
    assert ":" + "" == ":";
  }

  /** Every parameter is rewritten: the output has no `:` followed by a name
      character. */
  lemma {:induction false} RewriteLeavesNoColonParams(route: string)
    ensures NoColonParams(ToOpenApiPath(route))
    decreases |route|
  {
    if |route| == 0 {
    } else if route[0] == ':' && NameRun(route[1..]) > 0 {
      var n := NameRun(route[1..]);
      RewriteLeavesNoColonParams(route[1 + n..]);
      ParamSplit(route);
      NoColonParamsAfterBraced(route[1..1 + n], ToOpenApiPath(route[1 + n..]));
    } else {
      RewriteLeavesNoColonParams(route[1..]);
      NoColonParamsAfterChar(route);
    }
  }

  lemma {:induction false} NoColonParamsAfterBraced(name: string, rest: string)
    requires IsName(name) && NoColonParams(rest)
    ensures NoColonParams("{" + name + "}" + rest)
  {
    var head := "{" + name + "}";
    var r := head + rest;
    forall i | 0 <= i < |r| - 1 && r[i] == ':'
      ensures !IsNameChar(r[i + 1])
    {
      assert i >= |head|;
      assert r[i] == rest[i - |head|] && r[i + 1] == rest[i + 1 - |head|];
    }
  }

  lemma {:induction false} NoColonParamsAfterChar(route: string)
    requires |route| > 0 && !(route[0] == ':' && NameRun(route[1..]) > 0)
    requires NoColonParams(ToOpenApiPath(route[1..]))
    ensures NoColonParams(ToOpenApiPath(route))
  {
    var rest := ToOpenApiPath(route[1..]);
    var r := [route[0]] + rest;
    assert ToOpenApiPath(route) == r;
    forall i | 0 <= i < |r| - 1 && r[i] == ':'
      ensures !IsNameChar(r[i + 1])
    {
      if i == 0 {
        FirstCharOfRewrite(route[1..]);
      } else {
        assert r[i] == rest[i - 1] && r[i + 1] == rest[i];
      }
    }
  }

  /** A template with nothing left to rewrite is unchanged. */
  lemma {:induction false} RewriteOfRewritten(route: string)
    requires NoColonParams(route)
    ensures ToOpenApiPath(route) == route
    decreases |route|
  {
    if |route| > 0 {
      assert route[0] == ':' && |route| > 1 ==> !IsNameChar(route[1]);
      assert NoColonParams(route[1..]) by {
        forall i | 0 <= i < |route[1..]| - 1 && route[1..][i] == ':'
          ensures !IsNameChar(route[1..][i + 1])
        {
          assert route[i + 1] == ':';
        }
      }
      RewriteOfRewritten(route[1..]);
      assert route == [route[0]] + route[1..];
    }
  }

  /** Rewriting twice is rewriting once. */
  lemma {:induction false} RewriteIdempotent(route: string)
    ensures ToOpenApiPath(ToOpenApiPath(route)) == ToOpenApiPath(route)
  {
    RewriteLeavesNoColonParams(route);
    RewriteOfRewritten(ToOpenApiPath(route));
  }

  /** All characters other than the template punctuation are kept, in order. */
  lemma {:induction false} RewriteKeepsLiterals(route: string)
    ensures Literals(ToOpenApiPath(route)) == Literals(route)
    decreases |route|
  {
    if |route| == 0 {
    } else if route[0] == ':' && NameRun(route[1..]) > 0 {
      RewriteKeepsLiterals(route[1 + NameRun(route[1..])..]);
      KeepsLiteralsParamStep(route);
    } else {
      RewriteKeepsLiterals(route[1..]);
      KeepsLiteralsLiteralStep(route);
    }
  }

  lemma {:induction false} KeepsLiteralsParamStep(route: string)
    requires |route| > 0 && route[0] == ':' && NameRun(route[1..]) > 0
    requires Literals(ToOpenApiPath(route[1 + NameRun(route[1..])..])) == Literals(route[1 + NameRun(route[1..])..])
    ensures Literals(ToOpenApiPath(route)) == Literals(route)
  {
    var n := NameRun(route[1..]);
    ParamSplit(route);
    LiteralsOfBraced(route[1..1 + n], ToOpenApiPath(route[1 + n..]));
    LiteralsOfColon(route[1..1 + n], route[1 + n..]);
  }

  /** `{name}` contributes just `name` to the literals. */
  lemma {:induction false} LiteralsOfBraced(name: string, out: string)
    requires IsName(name)
    ensures Literals("{" + name + "}" + out) == name + Literals(out)
  {
    LiteralsOfName(name);
    LiteralsAppend("{" + name + "}", out);
    LiteralsAppend("{" + name, "}");
    LiteralsAppend("{", name);
  }

  /** `:name` contributes just `name` to the literals. */
  lemma {:induction false} LiteralsOfColon(name: string, rest: string)
    requires IsName(name)
    ensures Literals(":" + name + rest) == name + Literals(rest)
  {
    LiteralsOfName(name);
    LiteralsAppend(":" + name, rest);
    LiteralsAppend(":", name);
  }

  lemma {:induction false} KeepsLiteralsLiteralStep(route: string)
    requires |route| > 0 && !(route[0] == ':' && NameRun(route[1..]) > 0)
    requires Literals(ToOpenApiPath(route[1..])) == Literals(route[1..])
    ensures Literals(ToOpenApiPath(route)) == Literals(route)
  {
    assert ToOpenApiPath(route) == [route[0]] + ToOpenApiPath(route[1..]);
    LiteralsAppend([route[0]], ToOpenApiPath(route[1..]));
    LiteralsAppend([route[0]], route[1..]);
    assert route == [route[0]] + route[1..];
  }

  /** The run of name characters in `name + rest` is `name` when `rest` does
      not start with a name character. */
  lemma {:induction false} NameRunOfPrefix(name: string, rest: string)
    requires forall i :: 0 <= i < |name| ==> IsNameChar(name[i])
    requires |rest| == 0 || !IsNameChar(rest[0])
    ensures NameRun(name + rest) == |name|
    decreases |name|
  {
    if |name| > 0 {
      assert (name + rest)[1..] == name[1..] + rest;
      NameRunOfPrefix(name[1..], rest);
    } else {
      assert name + rest == rest;
    }
  }

  /** Round trip: for a route without braces, reading the OpenAPI template
      back gives the route. */
  lemma {:induction false} RewriteRoundTrip(route: string)
    requires NoBraces(route)
    ensures FromOpenApiPath(ToOpenApiPath(route)) == route
    decreases |route|
  {
    if |route| == 0 {
    } else if route[0] == ':' && NameRun(route[1..]) > 0 {
      var n := NameRun(route[1..]);
      NoBracesSuffix(route, 1 + n);
      RewriteRoundTrip(route[1 + n..]);
      RoundTripParamStep(route);
    } else {
      NoBracesSuffix(route, 1);
      RewriteRoundTrip(route[1..]);
      RoundTripLiteralStep(route);
    }
  }

  lemma {:induction false} NoBracesSuffix(s: string, k: nat)
    requires NoBraces(s) && k <= |s|
    ensures NoBraces(s[k..])
  {
    forall i | 0 <= i < |s[k..]| ensures s[k..][i] != '{' && s[k..][i] != '}' {
      assert s[k..][i] == s[k + i];
    }
  }

  lemma {:induction false} RoundTripParamStep(route: string)
    requires |route| > 0 && route[0] == ':' && NameRun(route[1..]) > 0
    requires FromOpenApiPath(ToOpenApiPath(route[1 + NameRun(route[1..])..])) == route[1 + NameRun(route[1..])..]
    ensures FromOpenApiPath(ToOpenApiPath(route)) == route
  {
    var n := NameRun(route[1..]);
    ParamSplit(route);
    ReadParam(route[1..1 + n], ToOpenApiPath(route[1 + n..]));
  }

  /** A route that starts with a parameter: its parts and its rewrite. */
  lemma {:induction false} ParamSplit(route: string)
    requires |route| > 0 && route[0] == ':' && NameRun(route[1..]) > 0
    ensures var n := NameRun(route[1..]);
            && IsName(route[1..1 + n])
            && route == ":" + route[1..1 + n] + route[1 + n..]
            && ToOpenApiPath(route) == "{" + route[1..1 + n] + "}" + ToOpenApiPath(route[1 + n..])
  {
    NameRunMaximal(route[1..]);
    var n := NameRun(route[1..]);
    assert route == ":" + route[1..1 + n] + route[1 + n..];
  }

  lemma {:induction false} RoundTripLiteralStep(route: string)
    requires |route| > 0 && route[0] != '{' && !(route[0] == ':' && NameRun(route[1..]) > 0)
    requires FromOpenApiPath(ToOpenApiPath(route[1..])) == route[1..]
    ensures FromOpenApiPath(ToOpenApiPath(route)) == route
  {
    var out := ToOpenApiPath(route[1..]);
    assert ToOpenApiPath(route) == [route[0]] + out;
    assert FromOpenApiPath([route[0]] + out) == [route[0]] + FromOpenApiPath(out) by {
      assert ([route[0]] + out)[1..] == out;
    }
    assert route == [route[0]] + route[1..];
  }

  /** Reading back one template parameter `{name}`. */
  lemma {:induction false} ReadParam(name: string, out: string)
    requires IsName(name)
    ensures FromOpenApiPath("{" + name + "}" + out) == ":" + name + FromOpenApiPath(out)
  {
    var p := "{" + name + "}" + out;
    var n := |name|;
    assert p[1..] == name + ("}" + out);
    NameRunOfPrefix(name, "}" + out);
    assert p[1 + n] == '}';
    assert p[1..1 + n] == name;
    assert p[2 + n..] == out;
  }
}
