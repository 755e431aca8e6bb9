/** `replace_env_vars` of `src/utils.py`: every `${NAME}` placeholder in every
    string of a configuration tree is replaced by the value of the environment
    variable NAME; a name without a value raises ValueError. The environment
    is passed in as a map. */
module EnvVars {
  import opened Wrappers
  import opened Strings
  import opened Json

  // ---------------------------------------------------------------------
  // re.findall(r'\${([^}]+)}', s)
  // ---------------------------------------------------------------------

  /** The pattern `\${([^}]+)}` tried at `p`: `$`, `{`, one or more
      characters other than `}`, then `}`. The result is the index of that
      closing `}`. */
  function PlaceholderAt(s: string, p: nat): (r: Option<nat>)
    requires p <= |s|
    ensures r.Some? ==> p + 2 < r.value < |s| && s[p] == '$' && s[p + 1] == '{' && s[r.value] == '}'
                        && forall k :: p + 2 <= k < r.value ==> s[k] != '}'
    ensures r.Some? <==> && p + 2 < |s| && s[p] == '$' && s[p + 1] == '{' && s[p + 2] != '}'
                         && exists c :: p + 2 < c < |s| && s[c] == '}'
  {
    if p + 1 < |s| && s[p] == '$' && s[p + 1] == '{' then
      match FindChar(s, '}', p + 2)
      case Some(c) => if c > p + 2 then Some(c) else None
      case None => None
    else None
  }

  /** `re.findall` with the placeholder pattern: the names, left to right,
      matches not overlapping. Every name is non-empty and holds no `}`. */
  function Names(s: string): (names: seq<string>)
    ensures forall i :: 0 <= i < |names| ==> names[i] != [] && '}' !in names[i]
    decreases |s|
  {
    if s == [] then []
    else match PlaceholderAt(s, 0)
      case Some(c) => [s[2..c]] + Names(s[c + 1..])
      case None => Names(s[1..])
  }

  function Placeholder(name: string): string {
    "${" + name + "}"
  }

  // ---------------------------------------------------------------------
  // str.replace and the substitution loop
  // ---------------------------------------------------------------------

  /** Python's `s.replace(pat, repl)` for a non-empty `pat`: every
      non-overlapping occurrence, found scanning left to right, is replaced.
      `ReplaceNowhere` and `ReplaceAtFirst` state it in terms of `find`. */
  function ReplaceAll(s: string, pat: string, repl: string): string
    requires pat != []
    decreases |s|
  {
    if |s| < |pat| then s
    else if s[..|pat|] == pat then repl + ReplaceAll(s[|pat|..], pat, repl)
    else [s[0]] + ReplaceAll(s[1..], pat, repl)
  }

  /** `str.replace` as CPython runs it, when `find` finds nothing: the text
      is copied whole. */
  lemma ReplaceNowhere(s: string, pat: string, repl: string)
    requires pat != [] && IndexOf(s, pat, 0).None?
    ensures ReplaceAll(s, pat, repl) == s
  {
    assert NoneBefore(s, pat, |s|);
    ReplaceAllCopies(s, pat, repl, |s|);
    assert s[..|s|] == s && s[|s|..] == [];
  }

  /** `str.replace` as CPython runs it, when `find` finds the first
      occurrence at `i`: the text before it is copied, the replacement is
      written, and the scan goes on after the occurrence. */
  lemma ReplaceAtFirst(s: string, pat: string, repl: string, i: nat)
    requires pat != [] && IndexOf(s, pat, 0) == Some(i)
    ensures i + |pat| <= |s|
    ensures ReplaceAll(s, pat, repl) == s[..i] + repl + ReplaceAll(s[i + |pat|..], pat, repl)
  {
    assert OccursAt(s, pat, i) && NoneBefore(s, pat, i);
    ReplaceAllCopies(s, pat, repl, i);
    var rest := s[i + |pat|..];
    assert s[i..] == pat + rest;
    ReplaceFront(pat, rest, repl);
    AppendAssociates(s[..i], repl, ReplaceAll(rest, pat, repl));
  }

  /** No occurrence of `pat` starts in the first `i` characters of `s`. */
  predicate NoneBefore(s: string, pat: string, i: nat) {
    forall k :: 0 <= k < i ==> !OccursAt(s, pat, k)
  }

  /** An occurrence at the front is replaced and the scan goes on after it. */
  lemma ReplaceFront(pat: string, rest: string, repl: string)
    requires pat != []
    ensures ReplaceAll(pat + rest, pat, repl) == repl + ReplaceAll(rest, pat, repl)
  {
    var s := pat + rest;
    assert s[..|pat|] == pat;
    assert s[|pat|..] == rest;
  }

  /** A first character that starts no occurrence is copied. */
  lemma ReplaceKeepsFirst(t: string, pat: string, repl: string)
    requires pat != [] && |pat| <= |t| && !OccursAt(t, pat, 0)
    ensures ReplaceAll(t, pat, repl) == [t[0]] + ReplaceAll(t[1..], pat, repl)
  {
    assert t[..|pat|] != pat;
  }

  /** Dropping the first character shifts the occurrence-free stretch. */
  lemma NoneBeforeTail(s: string, pat: string, i: nat)
    requires 0 < i <= |s| && NoneBefore(s, pat, i)
    ensures !OccursAt(s, pat, 0) && NoneBefore(s[1..], pat, i - 1)
  {
    assert !OccursAt(s, pat, 0);
    var t := s[1..];
    forall k | 0 <= k < i - 1 ensures !OccursAt(t, pat, k) {
      assert !OccursAt(s, pat, k + 1);
      if k + |pat| <= |t| {
        assert t[k..k + |pat|] == s[k + 1..k + 1 + |pat|];
      }
    }
  }

  /** Text with no occurrence starting in its first `i` characters is
      copied up to there. */
  lemma {:induction false} ReplaceAllCopies(s: string, pat: string, repl: string, i: nat)
    requires pat != [] && i <= |s| && NoneBefore(s, pat, i)
    ensures ReplaceAll(s, pat, repl) == s[..i] + ReplaceAll(s[i..], pat, repl)
    decreases i
  {
    if i > 0 && |s| < |pat| {
      assert ReplaceAll(s[i..], pat, repl) == s[i..];
      assert s == s[..i] + s[i..];
    } else if i > 0 {
      var rest := ReplaceAll(s[i..], pat, repl);
      NoneBeforeTail(s, pat, i);
      calc {
        ReplaceAll(s, pat, repl);
      == { ReplaceKeepsFirst(s, pat, repl); }
        [s[0]] + ReplaceAll(s[1..], pat, repl);
      == { ReplaceAllCopies(s[1..], pat, repl, i - 1);
           assert s[1..][i - 1..] == s[i..]; }
        [s[0]] + (s[1..][..i - 1] + rest);
      == { assert [s[0]] + s[1..][..i - 1] == s[..i]; }
        s[..i] + rest;
      }
    }
  }

  function MissingError(name: string): Error {
    ValueError("Environment variable " + name + " not found")
  }

  /** The loop of the string branch, as a fold over the matched names in
      order: each name is looked up, and all occurrences of its placeholder
      in the text as it stands are replaced; the first name without a value
      raises. */
  function SubstituteNames(text: string, names: seq<string>, env: map<string, string>): (r: Result<string>)
    ensures r.Err? <==> exists i :: 0 <= i < |names| && names[i] !in env
    ensures r.Err? ==> exists i :: 0 <= i < |names| && names[i] !in env && r.error == MissingError(names[i])
    ensures r.Err? ==> FirstMissing(names, env, r.error)
    decreases |names|
  {
    if names == [] then Ok(text)
    else if names[0] !in env then Err(MissingError(names[0]))
    else
      var r := SubstituteNames(ReplaceAll(text, Placeholder(names[0]), env[names[0]]), names[1..], env);
      assert forall i :: 1 <= i < |names| ==> names[i] == names[1..][i - 1];
      if r.Err? then
        var k :| 0 <= k < |names[1..]| && names[1..][k] !in env && r.error == MissingError(names[1..][k])
                 && forall j :: 0 <= j < k ==> names[1..][j] in env;
        assert names[k + 1] !in env && r.error == MissingError(names[k + 1]);
        assert forall j :: 0 <= j < k + 1 ==> names[j] in env;
        r
      else r
  }

  /** `error` is the ValueError of the first name, in order, that has no
      value: every name before it is set. */
  predicate FirstMissing(names: seq<string>, env: map<string, string>, error: Error) {
    exists i :: 0 <= i < |names| && names[i] !in env && error == MissingError(names[i])
                && forall j :: 0 <= j < i ==> names[j] in env
  }

  /** The string branch of `replace_env_vars`. */
  function Substitute(text: string, env: map<string, string>): (r: Result<string>)
    ensures Names(text) == [] ==> r == Ok(text)
    ensures r.Err? <==> exists n :: n in Names(text) && n !in env
    ensures r.Err? ==> exists n :: n in Names(text) && n !in env && r.error == MissingError(n)
    ensures r.Err? ==> FirstMissing(Names(text), env, r.error)
  {
    var names := Names(text);
    if names == [] then Ok(text) else SubstituteNames(text, names, env)
  }

  /** The string branch as the source runs it: find the names, then replace
      them one after the other, raising at the first name without a value. */
  method SubstituteString(config: string, env: map<string, string>) returns (r: Result<string>)
    ensures r == Substitute(config, env)
    ensures r.Err? <==> exists n :: n in Names(config) && n !in env
  {
    var matches := Names(config);
    if matches == [] {
      return Ok(config);
    }
    var result := config;
    var i := 0;
    while i < |matches|
      invariant 0 <= i <= |matches|
      invariant SubstituteNames(result, matches[i..], env) == SubstituteNames(config, matches, env)
    {
      var name := matches[i];
      assert matches[i..][0] == name && matches[i..][1..] == matches[i + 1..];
      if name !in env {
        return Err(MissingError(name));
      }
      result := ReplaceAll(result, Placeholder(name), env[name]);
      i := i + 1;
    }
    return Ok(result);
  }

  // ---------------------------------------------------------------------
  // The recursive transform over the configuration tree
  // ---------------------------------------------------------------------

  /** Same kind of node at every position: dicts with the same keys in the
      same order, lists of the same length, strings for strings, and every
      other value identical. */
  predicate SameShape(a: Json, b: Json)
    decreases a
  {
    match a
    case JObject(ms) =>
      b.JObject? && Keys(b.members) == Keys(ms)
      && forall i :: 0 <= i < |ms| ==> SameShape(ms[i].value, b.members[i].value)
    case JArray(xs) =>
      b.JArray? && |b.items| == |xs|
      && forall i :: 0 <= i < |xs| ==> SameShape(xs[i], b.items[i])
    case JStr(_) => b.JStr?
    case _ => b == a
  }

  /** Some string in the tree names a variable the environment lacks. */
  predicate HasMissing(j: Json, env: map<string, string>)
    decreases j
  {
    match j
    case JObject(ms) => exists i :: 0 <= i < |ms| && HasMissing(ms[i].value, env)
    case JArray(xs) => exists i :: 0 <= i < |xs| && HasMissing(xs[i], env)
    case JStr(s) => exists n :: n in Names(s) && n !in env
    case _ => false
  }

  /** `replace_env_vars`: a new tree of the same shape, or the ValueError for
      a missing variable, raised exactly when some string names one. Values
      that are not a dict, list or string come back unchanged. */
  function ReplaceEnvVars(config: Json, env: map<string, string>): (r: Result<Json>)
    ensures r.Ok? ==> SameShape(config, r.value)
    ensures r.Err? <==> HasMissing(config, env)
    ensures r.Err? ==> exists n :: n !in env && r.error == MissingError(n)
    ensures !config.JObject? && !config.JArray? && !config.JStr? ==> r == Ok(config)
    ensures config.JStr? ==> (r.Ok? <==> Substitute(config.s, env).Ok?)
    ensures config.JStr? && r.Ok? ==> r.value == JStr(Substitute(config.s, env).value)
    ensures config.JStr? && r.Err? ==> r.error == Substitute(config.s, env).error
    decreases config
  {
    match config
    case JObject(ms) =>
      (match ReplaceMembers(ms, env)
       case Ok(ms') => Ok(JObject(ms'))
       case Err(e) => Err(e))
    case JArray(xs) =>
      (match ReplaceItems(xs, env)
       case Ok(xs') => Ok(JArray(xs'))
       case Err(e) => Err(e))
    case JStr(s) =>
      (match Substitute(s, env)
       case Ok(s') => Ok(JStr(s'))
       case Err(e) => Err(e))
    case _ => Ok(config)
  }

  /** The list comprehension: same length, element by element, the first
      element that raises ends it. */
  function ReplaceItems(xs: seq<Json>, env: map<string, string>): (r: Result<seq<Json>>)
    ensures r.Ok? ==> |r.value| == |xs|
                      && forall i :: 0 <= i < |xs| ==> ReplaceEnvVars(xs[i], env) == Ok(r.value[i])
    ensures r.Err? <==> exists i :: 0 <= i < |xs| && HasMissing(xs[i], env)
    ensures r.Err? ==> exists n :: n !in env && r.error == MissingError(n)
    decreases xs
  {
    if xs == [] then Ok([])
    else match ReplaceEnvVars(xs[0], env)
      case Err(e) => Err(e)
      case Ok(x) =>
        match ReplaceItems(xs[1..], env)
        case Err(e) =>
          assert forall i :: 1 <= i < |xs| ==> xs[i] == xs[1..][i - 1];
          Err(e)
        case Ok(rest) =>
          assert forall i :: 1 <= i < |xs| ==> xs[i] == xs[1..][i - 1];
          Ok([x] + rest)
  }

  /** The dict comprehension: the same keys in the same order, each value
      transformed, the first value that raises ends it. */
  function ReplaceMembers(ms: seq<Member>, env: map<string, string>): (r: Result<seq<Member>>)
    ensures r.Ok? ==> Keys(r.value) == Keys(ms)
                      && forall i :: 0 <= i < |ms| ==> ReplaceEnvVars(ms[i].value, env) == Ok(r.value[i].value)
    ensures r.Err? <==> exists i :: 0 <= i < |ms| && HasMissing(ms[i].value, env)
    ensures r.Err? ==> exists n :: n !in env && r.error == MissingError(n)
    decreases ms
  {
    if ms == [] then Ok([])
    else match ReplaceEnvVars(ms[0].value, env)
      case Err(e) => Err(e)
      case Ok(v) =>
        match ReplaceMembers(ms[1..], env)
        case Err(e) =>
          assert forall i :: 1 <= i < |ms| ==> ms[i] == ms[1..][i - 1];
          Err(e)
        case Ok(rest) =>
          assert forall i :: 1 <= i < |ms| ==> ms[i] == ms[1..][i - 1];
          var r := [Member(ms[0].key, v)] + rest;
          assert r[1..] == rest;
          Ok(r)
  }
}

/** When the sequential `str.replace` loop of `replace_env_vars` equals a
    single pass that replaces each placeholder of the original string once.

    The strings are viewed as literal text and placeholders. The equality
    holds when the only `$` signs of the string open its placeholders, names
    hold neither `$` nor `}`, and the values hold no `$`; the counterexample
    at the end shows that a `$` in a value already breaks it. */
module SinglePass {
  import opened Wrappers
  import opened Strings
  import opened EnvVars

  /** A piece of a configuration string: literal text or a `${NAME}`. */
  datatype Piece = Lit(text: string) | Var(name: string)

  function RenderPiece(p: Piece): string {
    match p
    case Lit(t) => t
    case Var(n) => Placeholder(n)
  }

  /** The configuration string the pieces spell. */
  function Render(ps: seq<Piece>): string
    decreases ps
  {
    if ps == [] then "" else RenderPiece(ps[0]) + Render(ps[1..])
  }

  /** The names of the placeholders, in order; exactly the names of the
      `Var` pieces. */
  function VarNames(ps: seq<Piece>): (names: seq<string>)
    ensures forall i :: 0 <= i < |ps| && ps[i].Var? ==> ps[i].name in names
    ensures forall n :: n in names ==> exists i :: 0 <= i < |ps| && ps[i] == Var(n)
    decreases ps
  {
    if ps == [] then []
    else
      var rest := VarNames(ps[1..]);
      assert forall i :: 1 <= i < |ps| ==> ps[i] == ps[1..][i - 1];
      if ps[0].Var? then [ps[0].name] + rest else rest
  }

  predicate NamesSet(ps: seq<Piece>, env: map<string, string>) {
    forall i :: 0 <= i < |ps| && ps[i].Var? ==> ps[i].name in env
  }

  /** The intended result: every placeholder of the original replaced, once,
      by its value. */
  function Expand(ps: seq<Piece>, env: map<string, string>): string
    requires NamesSet(ps, env)
    decreases ps
  {
    if ps == [] then ""
    else (match ps[0] case Lit(t) => t case Var(n) => env[n]) + Expand(ps[1..], env)
  }

  /** The only `$` of a literal is none; a name is non-empty and holds no `$`
      and no `}`. */
  predicate Plain(p: Piece) {
    match p
    case Lit(t) => '$' !in t
    case Var(n) => n != [] && '$' !in n && '}' !in n
  }

  predicate AllPlain(ps: seq<Piece>) {
    forall i :: 0 <= i < |ps| ==> Plain(ps[i])
  }

  /** No value of a referenced name holds a `$`. */
  predicate PlainValues(ps: seq<Piece>, env: map<string, string>) {
    forall i :: 0 <= i < |ps| && ps[i].Var? && ps[i].name in env ==> '$' !in env[ps[i].name]
  }

  /** The placeholders whose names are in `done` (and set) replaced by their
      values: the string after the loop has handled those names. */
  function Resolve(ps: seq<Piece>, done: set<string>, env: map<string, string>): (qs: seq<Piece>)
    ensures |qs| == |ps|
    decreases ps
  {
    if ps == [] then []
    else
      var p := ps[0];
      [if p.Var? && p.name in done && p.name in env then Lit(env[p.name]) else p]
      + Resolve(ps[1..], done, env)
  }

  lemma {:induction false} RenderCons(p: Piece, ps: seq<Piece>)
    ensures Render([p] + ps) == RenderPiece(p) + Render(ps)
  {
    assert ([p] + ps)[1..] == ps;
  }

  /** Literal text without `$` contributes no match to `findall`. */
  lemma {:induction false} NamesSkipLiteral(t: string, rest: string)
    requires '$' !in t
    ensures Names(t + rest) == Names(rest)
    decreases |t|
  {
    if t != [] {
      var s := t + rest;
      assert s[0] == t[0];
      assert PlaceholderAt(s, 0).None?;
      assert s[1..] == t[1..] + rest;
      NamesSkipLiteral(t[1..], rest);
    } else {
      assert t + rest == rest;
    }
  }

  /** A `${NAME}` contributes NAME to `findall`, and the scan resumes after it. */
  lemma NamesPlaceholder(n: string, rest: string)
    requires n != [] && '}' !in n
    ensures Names(Placeholder(n) + rest) == [n] + Names(rest)
  {
    var s := Placeholder(n) + rest;
    var c := 2 + |n|;
    assert s[c] == '}';
    assert forall k :: 2 <= k < c ==> s[k] == n[k - 2];
    assert FindChar(s, '}', 2) == Some(c);
    assert PlaceholderAt(s, 0) == Some(c);
    assert s[2..c] == n;
    assert s[c + 1..] == rest;
  }

  /** `findall` over the spelled string finds exactly the placeholders. */
  lemma {:induction false} NamesOfRender(ps: seq<Piece>)
    requires AllPlain(ps)
    ensures Names(Render(ps)) == VarNames(ps)
    decreases ps
  {
    if ps != [] {
      assert AllPlain(ps[1..]) by {
        forall i | 0 <= i < |ps[1..]| ensures Plain(ps[1..][i]) { assert ps[1..][i] == ps[i + 1]; }
      }
      NamesOfRender(ps[1..]);
      assert Plain(ps[0]);
      match ps[0]
      case Lit(t) => NamesSkipLiteral(t, Render(ps[1..]));
      case Var(n) => NamesPlaceholder(n, Render(ps[1..]));
    }
  }

  /** `replace` moves past text that holds no `$` unchanged. */
  lemma {:induction false} ReplaceSkipLiteral(t: string, rest: string, pat: string, repl: string)
    requires pat != [] && pat[0] == '$' && '$' !in t
    ensures ReplaceAll(t + rest, pat, repl) == t + ReplaceAll(rest, pat, repl)
    decreases |t|
  {
    if t == [] {
      assert t + rest == rest;
    } else {
      var c, u := t[0], t[1..];
      var r := ReplaceAll(rest, pat, repl);
      calc {
        ReplaceAll(t + rest, pat, repl);
      == { assert c in t;
           assert (t + rest)[1..] == u + rest;
           ReplaceSkipChar(t + rest, pat, repl); }
        [c] + ReplaceAll(u + rest, pat, repl);
      == { assert '$' !in u by { assert c in t && t == [c] + u; }
           ReplaceSkipLiteral(u, rest, pat, repl); }
        [c] + (u + r);
      == { assert t == [c] + u; }
        t + r;
      }
    }
  }

  /** `replace` moves past a first character that is not the pattern's first. */
  lemma ReplaceSkipChar(s: string, pat: string, repl: string)
    requires pat != [] && s != [] && s[0] != pat[0]
    ensures ReplaceAll(s, pat, repl) == [s[0]] + ReplaceAll(s[1..], pat, repl)
  {
    if |s| < |pat| {
      assert ReplaceAll(s[1..], pat, repl) == s[1..];
      assert s == [s[0]] + s[1..];
    } else {
      assert s[..|pat|][0] == s[0];
      ReplaceKeepsFirst(s, pat, repl);
    }
  }

  /** `${n}` does not begin with `${a}` when the names differ and neither
      holds a `}`. */
  lemma PlaceholderNotPrefix(n: string, a: string, rest: string)
    requires n != a && '}' !in n && '}' !in a
    requires |Placeholder(a)| <= |Placeholder(n) + rest|
    ensures (Placeholder(n) + rest)[..|Placeholder(a)|] != Placeholder(a)
  {
    var s := Placeholder(n) + rest;
    var pa := Placeholder(a);
    var head := s[..|pa|];
    if |n| > |a| {
      assert head[2 + |a|] == n[|a|] != '}' == pa[2 + |a|];
    } else if |n| < |a| {
      assert head[2 + |n|] == '}' != a[|n|] == pa[2 + |n|];
    } else {
      var k :| 0 <= k < |n| && n[k] != a[k];
      assert head[2 + k] == n[k] != a[k] == pa[2 + k];
    }
  }

  /** `replace` moves past a placeholder of another name unchanged. */
  lemma ReplaceMiss(n: string, a: string, rest: string, repl: string)
    requires Plain(Var(n)) && n != a && '}' !in a
    ensures ReplaceAll(Placeholder(n) + rest, Placeholder(a), repl)
            == Placeholder(n) + ReplaceAll(rest, Placeholder(a), repl)
  {
    if |Placeholder(n) + rest| < |Placeholder(a)| {
      ReplaceShort(Placeholder(n), rest, Placeholder(a), repl);
    } else {
      PlaceholderNotPrefix(n, a, rest);
      ReplaceMissFront(n, rest, Placeholder(a), repl);
    }
  }

  /** `replace` leaves text shorter than the pattern alone. */
  lemma ReplaceShort(t: string, rest: string, pat: string, repl: string)
    requires pat != [] && |t + rest| < |pat|
    ensures ReplaceAll(t + rest, pat, repl) == t + ReplaceAll(rest, pat, repl)
  {
    assert ReplaceAll(rest, pat, repl) == rest;
  }

  /** `replace` moves past a placeholder that does not begin with the
      pattern: its `$` does not open a match, and the rest of it holds no `$`. */
  lemma ReplaceMissFront(n: string, rest: string, pat: string, repl: string)
    requires pat != [] && pat[0] == '$' && '$' !in n
    requires |pat| <= |Placeholder(n) + rest|
    requires (Placeholder(n) + rest)[..|pat|] != pat
    ensures ReplaceAll(Placeholder(n) + rest, pat, repl) == Placeholder(n) + ReplaceAll(rest, pat, repl)
  {
    var s := Placeholder(n) + rest;
    var tail := "{" + n + "}";
    var after := ReplaceAll(rest, pat, repl);
    assert s[0] == '$' && s[1..] == tail + rest;
    calc {
      ReplaceAll(s, pat, repl);
      [s[0]] + ReplaceAll(s[1..], pat, repl);
      { assert '$' !in tail;
        ReplaceSkipLiteral(tail, rest, pat, repl); }
      ['$'] + (tail + after);
      { assert Placeholder(n) == ['$'] + tail; }
      Placeholder(n) + after;
    }
  }

  /** One round of the loop: replacing `${a}` everywhere in the string spelled
      so far resolves exactly the placeholders named `a`. */
  lemma {:induction false} ReplaceResolves(ps: seq<Piece>, done: set<string>, a: string,
                                           env: map<string, string>)
    requires AllPlain(ps) && NamesSet(ps, env) && PlainValues(ps, env)
    requires a in env && '}' !in a
    ensures ReplaceAll(Render(Resolve(ps, done, env)), Placeholder(a), env[a])
            == Render(Resolve(ps, done + {a}, env))
    decreases ps
  {
    if ps != [] {
      var pa := Placeholder(a);
      var tail := ps[1..];
      assert AllPlain(tail) && NamesSet(tail, env) && PlainValues(tail, env) by {
        assert forall i :: 0 <= i < |tail| ==> tail[i] == ps[i + 1];
      }
      ReplaceResolves(tail, done, a, env);
      var before := Resolve(ps, done, env);
      var after := Resolve(ps, done + {a}, env);
      assert before == [before[0]] + Resolve(tail, done, env);
      assert after == [after[0]] + Resolve(tail, done + {a}, env);
      RenderCons(before[0], Resolve(tail, done, env));
      RenderCons(after[0], Resolve(tail, done + {a}, env));
      var restBefore := Render(Resolve(tail, done, env));
      assert Plain(ps[0]);
      match ps[0]
      case Lit(t) =>
        ReplaceSkipLiteral(t, restBefore, pa, env[a]);
      case Var(n) =>
        if n in done {
          assert '$' !in env[n];
          ReplaceSkipLiteral(env[n], restBefore, pa, env[a]);
        } else if n == a {
          ReplaceFront(pa, restBefore, env[a]);
        } else {
          ReplaceMiss(n, a, restBefore, env[a]);
        }
    }
  }

  /** The whole loop: after all names of `ns`, in order, the placeholders of
      all those names are resolved. */
  lemma {:induction false} LoopResolves(ps: seq<Piece>, ns: seq<string>, done: set<string>,
                                        env: map<string, string>)
    requires AllPlain(ps) && NamesSet(ps, env) && PlainValues(ps, env)
    requires forall i :: 0 <= i < |ns| ==> ns[i] in env && '}' !in ns[i]
    ensures SubstituteNames(Render(Resolve(ps, done, env)), ns, env)
            == Ok(Render(Resolve(ps, done + (set n | n in ns), env)))
    decreases |ns|
  {
    if ns == [] {
      assert done + (set n | n in ns) == done;
    } else {
      ReplaceResolves(ps, done, ns[0], env);
      LoopResolves(ps, ns[1..], done + {ns[0]}, env);
      assert done + {ns[0]} + (set n | n in ns[1..]) == done + (set n | n in ns);
    }
  }

  /** Resolving every placeholder gives the single-pass expansion. */
  lemma {:induction false} ResolvedIsExpand(ps: seq<Piece>, done: set<string>, env: map<string, string>)
    requires NamesSet(ps, env)
    requires forall i :: 0 <= i < |ps| && ps[i].Var? ==> ps[i].name in done
    ensures Render(Resolve(ps, done, env)) == Expand(ps, env)
    decreases ps
  {
    if ps != [] {
      var tail := ps[1..];
      assert forall i :: 0 <= i < |tail| ==> tail[i] == ps[i + 1];
      ResolvedIsExpand(tail, done, env);
      var q := Resolve(ps, done, env);
      assert q == [q[0]] + Resolve(tail, done, env);
      RenderCons(q[0], Resolve(tail, done, env));
    }
  }

  /** Resolving no name changes nothing. */
  lemma {:induction false} ResolveNothing(ps: seq<Piece>, env: map<string, string>)
    ensures Resolve(ps, {}, env) == ps
    decreases ps
  {
    if ps != [] {
      ResolveNothing(ps[1..], env);
    }
  }

  /** For strings whose only `$` signs open placeholders whose names hold no
      `$` or `}`, with every name set to a value holding no `$`, the string
      branch of `replace_env_vars` replaces each placeholder of the original
      string by its value, once. */
  lemma SubstituteIsSinglePass(ps: seq<Piece>, env: map<string, string>)
    requires AllPlain(ps) && NamesSet(ps, env) && PlainValues(ps, env)
    ensures Substitute(Render(ps), env) == Ok(Expand(ps, env))
  {
    NamesOfRender(ps);
    ResolveNothing(ps, env);
    var names := VarNames(ps);
    assert forall i :: 0 <= i < |names| ==> names[i] in env && '}' !in names[i] by {
      forall i | 0 <= i < |names| ensures names[i] in env && '}' !in names[i] {
        assert names[i] in names;
        var j :| 0 <= j < |ps| && ps[j] == Var(names[i]);
        assert Plain(ps[j]);
      }
    }
    LoopResolves(ps, names, {}, env);
    ResolvedIsExpand(ps, {} + (set n | n in names), env);
  }

  /** A `$` in one value is enough to break the single-pass reading: with
      `A` set to `$`, the string `${A}{B}${B}` becomes `${B}${B}` after the
      round for A, whose new `${B}` the round for B replaces too. */
  lemma DollarValueRescanned(a: string, b: string, v: string, env: map<string, string>)
    requires Plain(Var(a)) && Plain(Var(b)) && a != b && '$' !in v
    requires a in env && b in env && env[a] == "$" && env[b] == v
    ensures var ps := [Var(a), Lit("{" + b + "}"), Var(b)];
            && AllPlain(ps) && NamesSet(ps, env)
            && Expand(ps, env) == Placeholder(b) + v
            && Substitute(Render(ps), env) == Ok(v + v)
            && v + v != Placeholder(b) + v
  {
    RescanSpelling(a, b);
    RescanExpand(a, b, v, env);
    RescanRounds(a, b, v, env);
    if v != [] {
      assert (v + v)[0] == v[0] != '$' == (Placeholder(b) + v)[0];
    }
  }

  /** The single-pass reading of the example. */
  lemma RescanExpand(a: string, b: string, v: string, env: map<string, string>)
    requires a in env && b in env && env[a] == "$" && env[b] == v
    ensures var ps := [Var(a), Lit("{" + b + "}"), Var(b)];
            NamesSet(ps, env) && Expand(ps, env) == Placeholder(b) + v
  {
    var ps := [Var(a), Lit("{" + b + "}"), Var(b)];
    var mid := "{" + b + "}";
    assert ps[1..] == [Lit(mid), Var(b)] && ps[1..][1..] == [Var(b)];
    calc {
      Expand(ps, env);
      "$" + Expand(ps[1..], env);
      "$" + (mid + Expand([Var(b)], env));
      { assert [Var(b)][1..] == []; }
      "$" + (mid + (v + ""));
      Placeholder(b) + v;
    }
  }

  /** The example's pieces spell `${A}{B}${B}`, in which `findall` finds A,
      then B. */
  lemma RescanSpelling(a: string, b: string)
    requires Plain(Var(a)) && Plain(Var(b))
    ensures var ps := [Var(a), Lit("{" + b + "}"), Var(b)];
            && AllPlain(ps)
            && Render(ps) == Placeholder(a) + ("{" + b + "}" + Placeholder(b))
            && Names(Render(ps)) == [a, b]
  {
    var ps := [Var(a), Lit("{" + b + "}"), Var(b)];
    var mid := "{" + b + "}";
    assert AllPlain(ps) by { assert '$' !in mid; }
    RenderCons(Var(a), ps[1..]);
    RenderCons(Lit(mid), ps[2..]);
    RenderCons(Var(b), []);
    assert ps == [Var(a)] + ([Lit(mid)] + [Var(b)]);
    assert ps[1..] == [Lit(mid), Var(b)] && ps[1..][1..] == [Var(b)] && [Var(b)][1..] == [];
    calc {
      VarNames(ps);
      [a] + VarNames(ps[1..]);
      [a] + VarNames([Var(b)]);
      [a] + ([b] + VarNames([]));
      [a, b];
    }
    NamesOfRender(ps);
  }

  /** The two rounds of the loop on the example: the round for A turns
      `${A}{B}${B}` into `${B}${B}`, and the round for B replaces both. */
  lemma RescanRounds(a: string, b: string, v: string, env: map<string, string>)
    requires Plain(Var(b)) && a != b && '}' !in a
    requires a in env && b in env && env[a] == "$" && env[b] == v
    ensures SubstituteNames(Placeholder(a) + ("{" + b + "}" + Placeholder(b)), [a, b], env) == Ok(v + v)
  {
    var pa, pb, mid := Placeholder(a), Placeholder(b), "{" + b + "}";
    calc {
      SubstituteNames(pa + (mid + pb), [a, b], env);
    == { assert [a, b][0] == a && [a, b][1..] == [b]; }
      SubstituteNames(ReplaceAll(pa + (mid + pb), pa, "$"), [b], env);
    == { RescanFirstRound(a, b); }
      SubstituteNames(pb + pb, [b], env);
    == { assert [b][1..] == []; }
      SubstituteNames(ReplaceAll(pb + pb, pb, v), [], env);
    == { ReplaceFront(pb, pb, v); }
      SubstituteNames(v + ReplaceAll(pb, pb, v), [], env);
    == { assert ReplaceAll(pb, pb, v) == v by {
           assert pb + "" == pb;
           ReplaceFront(pb, "", v);
           assert ReplaceAll("", pb, v) == "";
         } }
      SubstituteNames(v + v, [], env);
    }
  }

  /** The round for A on the example: its one placeholder becomes `$`, which
      with the literal `{B}` behind it spells `${B}`. */
  lemma RescanFirstRound(a: string, b: string)
    requires Plain(Var(b)) && a != b && '}' !in a
    ensures ReplaceAll(Placeholder(a) + ("{" + b + "}" + Placeholder(b)), Placeholder(a), "$")
            == Placeholder(b) + Placeholder(b)
  {
    var pa, pb, mid := Placeholder(a), Placeholder(b), "{" + b + "}";
    calc {
      ReplaceAll(pa + (mid + pb), pa, "$");
    == { ReplaceFront(pa, mid + pb, "$"); }
      "$" + ReplaceAll(mid + pb, pa, "$");
    == { assert '$' !in mid;
         ReplaceSkipLiteral(mid, pb, pa, "$"); }
      "$" + (mid + ReplaceAll(pb, pa, "$"));
    == { assert pb + "" == pb;
         ReplaceMiss(b, a, "", "$");
         assert ReplaceAll("", pa, "$") == ""; }
      "$" + (mid + pb);
    == 
      pb + pb;
    }
  }
}
