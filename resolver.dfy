/**
 * Variable resolution (src/planner/handler.py, `_resolve_vars` and
 * `_resolve_params`): every `${a.b.c}` token of a string parameter is
 * replaced by the value found by walking the dotted path through the
 * context, and left verbatim when the walk fails.
 *
 * A token is what the pattern `\$\{(.+?)\}` matches: `${`, then at least one
 * character and up to the first `}` after it, with no newline in between
 * (Python's `.` excludes newlines). Like `re.sub`, the scan resumes after each
 * match and never rescans substituted text.
 */
module Resolver {
  import opened Wrappers
  import opened Values

  type Context = map<string, Value>

  /** `s.split(sep)`. */
  function Split(s: string, sep: char): (parts: seq<string>)
    ensures |parts| >= 1
    decreases |s|
  {
    if |s| == 0 then [""]
    else
      var rest := Split(s[1..], sep);
      if s[0] == sep then [""] + rest else [[s[0]] + rest[0]] + rest[1..]
  }

  /** `sep.join(parts)`. */
  function Join(parts: seq<string>, sep: char): string
    requires |parts| >= 1
    decreases |parts|
  {
    if |parts| == 1 then parts[0] else parts[0] + [sep] + Join(parts[1..], sep)
  }

  /** Splitting loses nothing: the parts hold no separator and join back to the string. */
  lemma {:induction false} SplitThenJoin(s: string, sep: char)
    ensures Join(Split(s, sep), sep) == s
    ensures forall k :: 0 <= k < |Split(s, sep)| ==> sep !in Split(s, sep)[k]
    decreases |s|
  {
    if |s| > 0 {
      SplitThenJoin(s[1..], sep);
      var rest := Split(s[1..], sep);
      if s[0] != sep {
        if |rest| == 1 {
          assert Split(s, sep) == [[s[0]] + rest[0]];
        } else {
          assert Split(s, sep)[1..] == rest[1..];
          assert Join(Split(s, sep), sep) == [s[0]] + rest[0] + [sep] + Join(rest[1..], sep);
        }
        assert s == [s[0]] + s[1..];
      } else {
        assert s == [sep] + s[1..];
        assert Split(s, sep)[1..] == rest;
      }
    }
  }

  lemma {:induction false} SplitNoSeparator(p: string, sep: char)
    requires sep !in p
    ensures Split(p, sep) == [p]
    decreases |p|
  {
    if |p| > 0 {
      SplitNoSeparator(p[1..], sep);
      assert p == [p[0]] + p[1..];
    }
  }

  lemma {:induction false} SplitAtSeparator(p: string, sep: char, rest: string)
    requires sep !in p
    ensures Split(p + [sep] + rest, sep) == [p] + Split(rest, sep)
    decreases |p|
  {
    var s := p + [sep] + rest;
    if |p| == 0 {
      assert s == [sep] + rest;
      assert s[1..] == rest;
    } else {
      assert s[1..] == p[1..] + [sep] + rest;
      SplitAtSeparator(p[1..], sep, rest);
      assert [p[0]] + p[1..] == p;
    }
  }

  /** Joining parts that hold no separator and splitting again gives the parts back. */
  lemma {:induction false} JoinThenSplit(parts: seq<string>, sep: char)
    requires |parts| >= 1
    requires forall k :: 0 <= k < |parts| ==> sep !in parts[k]
    ensures Split(Join(parts, sep), sep) == parts
    decreases |parts|
  {
    if |parts| == 1 {
      SplitNoSeparator(parts[0], sep);
    } else {
      JoinThenSplit(parts[1..], sep);
      SplitAtSeparator(parts[0], sep, Join(parts[1..], sep));
      assert parts == [parts[0]] + parts[1..];
    }
  }

  /**
   * Walking a dotted path: at each key the current value must be a dict,
   * and `value.get(key)` must be present and not None.
   */
  function Walk(v: Value, path: seq<string>): (r: Option<Value>)
    ensures |path| > 0 && r.Some? ==> r.value != VNull
    decreases |path|
  {
    if |path| == 0 then Some(v)
    else if v.VMap? && path[0] in v.fields && v.fields[path[0]] != VNull then Walk(v.fields[path[0]], path[1..])
    else None
  }

  /** The walk cannot take `key` from `w`: not a dict, key missing, or the value is None. */
  predicate Blocked(w: Value, key: string)
  {
    !(w.VMap? && key in w.fields && w.fields[key] != VNull)
  }

  /** A walk along `p + q` is a walk along `p` followed by one along `q`. */
  lemma {:induction false} WalkAppend(v: Value, p: seq<string>, q: seq<string>)
    ensures Walk(v, p + q) == if Walk(v, p).Some? then Walk(Walk(v, p).value, q) else None
    decreases |p|
  {
    if |p| == 0 {
      assert p + q == q;
    } else {
      assert (p + q)[0] == p[0];
      assert (p + q)[1..] == p[1..] + q;
      if v.VMap? && p[0] in v.fields && v.fields[p[0]] != VNull {
        WalkAppend(v.fields[p[0]], p[1..], q);
      }
    }
  }

  /** A walk fails exactly when, after some prefix of the path, the next key is blocked. */
  lemma {:induction false} WalkFailsIffBlocked(v: Value, path: seq<string>)
    ensures Walk(v, path).None? <==>
      exists i :: 0 <= i < |path| && Walk(v, path[..i]).Some? && Blocked(Walk(v, path[..i]).value, path[i])
    decreases |path|
  {
    if |path| > 0 {
      assert path[..0] == [];
      if Blocked(v, path[0]) {
        assert Walk(v, path[..0]) == Some(v);
      } else {
        var next := v.fields[path[0]];
        WalkFailsIffBlocked(next, path[1..]);
        forall i | 1 <= i <= |path|
          ensures Walk(v, path[..i]) == Walk(next, path[1..][..i - 1])
        {
          assert path[..i][0] == path[0];
          assert path[..i][1..] == path[1..][..i - 1];
        }
        if Walk(v, path).None? {
          var i :| 0 <= i < |path[1..]| && Walk(next, path[1..][..i]).Some? && Blocked(Walk(next, path[1..][..i]).value, path[1..][i]);
          assert Walk(v, path[..i + 1]) == Walk(next, path[1..][..i]);
        }
        if exists i :: 0 <= i < |path| && Walk(v, path[..i]).Some? && Blocked(Walk(v, path[..i]).value, path[i]) {
          var i :| 0 <= i < |path| && Walk(v, path[..i]).Some? && Blocked(Walk(v, path[..i]).value, path[i]);
          assert i > 0;
          assert Walk(next, path[1..][..i - 1]).Some? && Blocked(Walk(next, path[1..][..i - 1]).value, path[1..][i - 1]);
        }
      }
    }
  }

  /** The index of the first `}` at or after `k`, unless a newline or the end of the text comes first. */
  function CloseBrace(text: string, k: nat): (r: Option<nat>)
    ensures r.Some? ==> k <= r.value < |text| && text[r.value] == '}'
    ensures r.Some? ==> forall j :: k <= j < r.value ==> text[j] != '}' && text[j] != '\n'
    decreases |text| - k
  {
    if k >= |text| then None
    else if text[k] == '}' then Some(k)
    else if text[k] == '\n' then None
    else CloseBrace(text, k + 1)
  }

  /** Where the token pattern matches at the start of `text`: the index of its closing brace. */
  function TokenEnd(text: string): Option<nat>
  {
    if |text| >= 3 && text[0] == '$' && text[1] == '{' && text[2] != '\n' then CloseBrace(text, 3) else None
  }

  /** `str()` of what the path walks to, or the token itself when the walk fails. */
  function Replacement(path: string, token: string, ctx: Context, repr: Value -> string): string
  {
    match Walk(VMap(ctx), Split(path, '.'))
    case Some(v) => Render(v, repr)
    case None => token
  }

  /** `re.sub(pattern, replacer, text)`. */
  function Substitute(text: string, ctx: Context, repr: Value -> string): string
    decreases |text|
  {
    if |text| == 0 then ""
    else
      match TokenEnd(text)
      case Some(j) => Replacement(text[2..j], text[..j + 1], ctx, repr) + Substitute(text[j + 1..], ctx, repr)
      case None => [text[0]] + Substitute(text[1..], ctx, repr)
  }

  /** `_resolve_vars`: strings are substituted, every other value is returned unchanged. */
  function ResolveVars(v: Value, ctx: Context, repr: Value -> string): Value
  {
    if v.VStr? then VStr(Substitute(v.s, ctx, repr)) else v
  }

  /** `_resolve_params`: a new dict with the same keys, each value resolved. */
  function ResolveParams(params: map<string, Value>, ctx: Context, repr: Value -> string): (r: map<string, Value>)
    ensures r.Keys == params.Keys
  {
    map k | k in params :: ResolveVars(params[k], ctx, repr)
  }

  /** A parameter that is not a string passes through resolution unchanged. */
  lemma NonStringParamUnchanged(params: map<string, Value>, ctx: Context, repr: Value -> string, k: string)
    requires k in params && !params[k].VStr?
    ensures ResolveParams(params, ctx, repr)[k] == params[k]
  {
  }

  /** Text in which the token pattern matches at no position is returned unchanged. */
  lemma {:induction false} NoTokenUnchanged(text: string, ctx: Context, repr: Value -> string)
    requires forall i :: 0 <= i < |text| ==> TokenEnd(text[i..]).None?
    ensures Substitute(text, ctx, repr) == text
    decreases |text|
  {
    if |text| > 0 {
      assert text[0..] == text;
      forall i | 0 <= i < |text[1..]|
        ensures TokenEnd(text[1..][i..]).None?
      {
        assert text[1..][i..] == text[i + 1..];
      }
      NoTokenUnchanged(text[1..], ctx, repr);
      assert text == [text[0]] + text[1..];
    }
  }

  /** An opener that is never closed on its line is no token: `"${abc"` is returned as it is. */
  lemma UnclosedOpenerUnchanged(ctx: Context, repr: Value -> string)
    ensures Substitute("${abc", ctx, repr) == "${abc"
    ensures Substitute("${\n}", ctx, repr) == "${\n}"
  {
    var t := "${abc";
    forall i | 0 <= i < |t|
      ensures TokenEnd(t[i..]).None?
    {
      if i == 0 {
        assert CloseBrace(t, 3) == None by {
          assert CloseBrace(t, 5) == None;
        }
      }
    }
    NoTokenUnchanged(t, ctx, repr);
    var u := "${\n}";
    forall i | 0 <= i < |u|
      ensures TokenEnd(u[i..]).None?
    {
    }
    NoTokenUnchanged(u, ctx, repr);
  }

  /** Parameters whose strings contain no `$` resolve to themselves. */
  lemma PlainParamsUnchanged(params: map<string, Value>, ctx: Context, repr: Value -> string)
    requires forall k :: k in params && params[k].VStr? ==> '$' !in params[k].s
    ensures ResolveParams(params, ctx, repr) == params
  {
    forall k | k in params
      ensures ResolveVars(params[k], ctx, repr) == params[k]
    {
      if params[k].VStr? {
        PlainPrefixCopied(params[k].s, "", ctx, repr);
        assert params[k].s + "" == params[k].s;
      }
    }
  }

  /** Text without a `$` before the rest is copied verbatim, and the rest is scanned on its own. */
  lemma {:induction false} PlainPrefixCopied(a: string, b: string, ctx: Context, repr: Value -> string)
    requires '$' !in a
    ensures Substitute(a + b, ctx, repr) == a + Substitute(b, ctx, repr)
    decreases |a|
  {
    if |a| == 0 {
      assert a + b == b;
    } else {
      var t := a + b;
      assert t[0] == a[0] && TokenEnd(t).None?;
      assert t[1..] == a[1..] + b;
      PlainPrefixCopied(a[1..], b, ctx, repr);
      assert a == [a[0]] + a[1..];
    }
  }

  lemma {:induction false} CloseBraceAfter(text: string, k: nat, e: nat)
    requires k <= e < |text| && text[e] == '}'
    requires forall j :: k <= j < e ==> text[j] != '}' && text[j] != '\n'
    ensures CloseBrace(text, k) == Some(e)
    decreases e - k
  {
    if k < e {
      CloseBraceAfter(text, k + 1, e);
    }
  }

  /**
   * A token `${path}` at the start of the text is replaced by the string
   * form of the value its path walks to (whatever that value's truthiness),
   * or kept verbatim when the walk fails; either way the rest of the text is
   * scanned independently.
   */
  lemma TokenReplaced(path: string, rest: string, ctx: Context, repr: Value -> string)
    requires |path| >= 1 && '\n' !in path && '}' !in path[1..]
    ensures Walk(VMap(ctx), Split(path, '.')).Some? ==>
      Substitute("${" + path + "}" + rest, ctx, repr) ==
        Render(Walk(VMap(ctx), Split(path, '.')).value, repr) + Substitute(rest, ctx, repr)
    ensures Walk(VMap(ctx), Split(path, '.')).None? ==>
      Substitute("${" + path + "}" + rest, ctx, repr) == "${" + path + "}" + Substitute(rest, ctx, repr)
  {
    var text := "${" + path + "}" + rest;
    var e := 2 + |path|;
    assert text[e] == '}';
    forall j | 3 <= j < e ensures text[j] != '}' && text[j] != '\n' {
      assert text[j] == path[1..][j - 3];
    }
    CloseBraceAfter(text, 3, e);
    assert text[2] == path[0];
    assert TokenEnd(text) == Some(e);
    assert text[2..e] == path;
    assert text[..e + 1] == "${" + path + "}";
    assert text[e + 1..] == rest;
  }

  /** A whole-string token naming one key of the context. */
  lemma {:induction false} SingleKeyToken(key: string, ctx: Context, repr: Value -> string)
    requires |key| >= 1 && '.' !in key && '\n' !in key && '}' !in key
    ensures key in ctx && ctx[key] != VNull ==> Substitute("${" + key + "}", ctx, repr) == Render(ctx[key], repr)
    ensures !(key in ctx && ctx[key] != VNull) ==> Substitute("${" + key + "}", ctx, repr) == "${" + key + "}"
  {
    SplitNoSeparator(key, '.');
    assert Split(key, '.') == [key];
    assert [key][1..] == [];
    if key in ctx && ctx[key] != VNull {
      assert Walk(VMap(ctx), [key]) == Walk(ctx[key], []);
    }
    TokenReplaced(key, "", ctx, repr);
    assert "${" + key + "}" + "" == "${" + key + "}";
    assert Substitute("", ctx, repr) == "";
  }

  /** A token whose first key is absent from the context stays verbatim. */
  lemma {:induction false} AbsentFirstKeyVerbatim(path: string, ctx: Context, repr: Value -> string)
    requires |path| >= 1 && '\n' !in path && '}' !in path && Split(path, '.')[0] !in ctx
    ensures Substitute("${" + path + "}", ctx, repr) == "${" + path + "}"
  {
    TokenReplaced(path, "", ctx, repr);
    assert "${" + path + "}" + "" == "${" + path + "}";
  }

  /** Resolution of a key that holds a falsy value: "" and 0 still substitute. */
  lemma FalsyValuesSubstitute(repr: Value -> string)
    ensures Substitute("${e}", map["e" := VStr("")], repr) == ""
    ensures Substitute("${n}", map["n" := VInt(0)], repr) == "0"
  {
    var e, n := "e", "n";
    SingleKeyToken(e, map[e := VStr("")], repr);
    SingleKeyToken(n, map[n := VInt(0)], repr);
    assert "${" + e + "}" == "${e}";
    assert "${" + n + "}" == "${n}";
    assert ShowInt(0) == "0";
  }

  /** A dotted token `${first.rest}` whose first key is absent stays verbatim. */
  lemma AbsentDottedPathVerbatim(first: string, rest: string, ctx: Context, repr: Value -> string)
    requires |first| >= 1 && '.' !in first && first !in ctx
    requires '\n' !in first && '}' !in first && '\n' !in rest && '}' !in rest
    ensures Substitute("${" + (first + ['.'] + rest) + "}", ctx, repr) == "${" + (first + ['.'] + rest) + "}"
  {
    SplitAtSeparator(first, '.', rest);
    AbsentFirstKeyVerbatim(first + ['.'] + rest, ctx, repr);
  }

  /** `${missing.path}` in an empty context stays verbatim. */
  lemma MissingPathVerbatim(repr: Value -> string)
    ensures Substitute("${missing.path}", map[], repr) == "${missing.path}"
  {
    var first, rest := "missing", "path";
    AbsentDottedPathVerbatim(first, rest, map[], repr);
    assert "${" + (first + ['.'] + rest) + "}" == "${missing.path}";
  }

  /** Substituted text is not scanned again: a value that itself looks like a token is inserted as is. */
  lemma SubstitutedTextNotRescanned(repr: Value -> string)
    ensures Substitute("${a}", map["a" := VStr("${b}"), "b" := VStr("x")], repr) == "${b}"
  {
    var a := "a";
    SingleKeyToken(a, map[a := VStr("${b}"), "b" := VStr("x")], repr);
    assert "${" + a + "}" == "${a}";
  }
}
