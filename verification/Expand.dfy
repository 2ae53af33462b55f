/** Variable references in compose files: expandEnvVars of internal/discovery/parser.go. */
module Expand {
  import opened Options
  import opened Sequences

  predicate IsLetter(c: char) {
    'A' <= c <= 'Z' || 'a' <= c <= 'z' || c == '_'
  }

  predicate IsWord(c: char) {
    IsLetter(c) || '0' <= c <= '9'
  }

  // ----- strings.Index -----

  predicate OccursAt(s: string, sub: string, i: int) {
    0 <= i && i + |sub| <= |s| && s[i..i + |sub|] == sub
  }

  lemma OccursBehind(c: char, s: string, sub: string, i: int)
    requires 0 <= i
    ensures OccursAt([c] + s, sub, i + 1) <==> OccursAt(s, sub, i)
  {
  }

  function Index(s: string, sub: string): (r: int)
    requires sub != ""
    ensures -1 <= r && (0 <= r ==> OccursAt(s, sub, r))
    ensures forall i :: 0 <= i && (r < 0 || i < r) ==> !OccursAt(s, sub, i)
  {
    if |s| < |sub| then -1
    else if s[..|sub|] == sub then 0
    else
      assert [s[0]] + s[1..] == s;
      assert forall i :: 0 < i && OccursAt(s, sub, i) ==> OccursAt(s[1..], sub, i - 1) by {
        forall i | 0 < i && OccursAt(s, sub, i) {
          OccursBehind(s[0], s[1..], sub, i - 1);
        }
      }
      var r := Index(s[1..], sub);
      if r < 0 then -1
      else
        OccursBehind(s[0], s[1..], sub, r);
        r + 1
  }

  // ----- the pattern \$\{([^}]+)\}|\$([A-Za-z_][A-Za-z0-9_]*) -----

  predicate IsBraced(m: string) {
    4 <= |m| && m[..2] == "${" && m[|m| - 1] == '}' && '}' !in m[2..|m| - 1]
  }

  predicate IsBare(m: string) {
    2 <= |m| && m[0] == '$' && IsLetter(m[1]) && forall i :: 1 <= i < |m| ==> IsWord(m[i])
  }

  function WordLength(s: string): (n: nat)
    ensures n <= |s| && (forall i :: 0 <= i < n ==> IsWord(s[i])) && (n < |s| ==> !IsWord(s[n]))
  {
    if s == "" || !IsWord(s[0]) then 0 else 1 + WordLength(s[1..])
  }

  /** The length of the match at the start of s, which is zero when there is none. */
  function MatchLength(s: string): (n: nat)
    ensures n <= |s|
  {
    if |s| < 2 || s[0] != '$' then 0
    else if s[1] == '{' then
      var k := Index(s[2..], "}");
      if k <= 0 then 0 else k + 3
    else if IsLetter(s[1]) then 1 + WordLength(s[1..])
    else 0
  }

  lemma NoBrace(s: string, k: nat)
    requires k <= |s|
    ensures '}' !in s[..k] <==> forall i :: 0 <= i < k ==> !OccursAt(s, "}", i)
  {
    forall i | 0 <= i < k
      ensures OccursAt(s, "}", i) <==> s[i] == '}'
    {
      assert s[i..i + 1] == [s[i]];
    }
    if '}' in s[..k] {
      var i :| 0 <= i < k && s[..k][i] == '}';
      assert OccursAt(s, "}", i);
    }
    if i :| 0 <= i < k && OccursAt(s, "}", i) {
      assert s[..k][i] == '}';
    }
  }

  lemma BracedLength(m: string, rest: string)
    requires IsBraced(m)
    ensures MatchLength(m + rest) == |m|
  {
    var s := (m + rest)[2..];
    var k := |m| - 3;
    assert s[..k] == m[2..|m| - 1];
    assert s[k..k + 1] == "}";
    assert m[..2] == "${";
    assert m[0] == '$' && m[1] == '{';
    NoBrace(s, k);
    assert OccursAt(s, "}", k);
  }

  lemma {:induction false} WordLengthIs(word: string, rest: string)
    requires forall i :: 0 <= i < |word| ==> IsWord(word[i])
    requires rest == "" || !IsWord(rest[0])
    ensures WordLength(word + rest) == |word|
  {
    if word == "" {
      assert word + rest == rest;
    } else {
      assert (word + rest)[1..] == word[1..] + rest;
      WordLengthIs(word[1..], rest);
    }
  }

  lemma BareLength(m: string, rest: string)
    requires IsBare(m) && (rest == "" || !IsWord(rest[0]))
    ensures MatchLength(m + rest) == |m|
  {
    assert (m + rest)[1..] == m[1..] + rest;
    WordLengthIs(m[1..], rest);
  }

  /** A match is found exactly when some prefix has one of the two forms; it is the only such
      prefix, or for a bare name the longest. */
  lemma MatchIff(s: string)
    ensures 0 < MatchLength(s) <==> exists n :: 0 <= n <= |s| && (IsBraced(s[..n]) || IsBare(s[..n]))
    ensures 0 < MatchLength(s) ==> IsBraced(s[..MatchLength(s)]) || IsBare(s[..MatchLength(s)])
    ensures forall n :: 0 <= n <= |s| && IsBraced(s[..n]) ==> n == MatchLength(s)
    ensures forall n :: 0 <= n <= |s| && IsBare(s[..n]) ==> n <= MatchLength(s)
  {
    if 0 < MatchLength(s) {
      MatchForm(s);
    }
    forall n | 0 <= n <= |s| && IsBraced(s[..n])
      ensures n == MatchLength(s)
    {
      BracedLength(s[..n], s[n..]);
      assert s[..n] + s[n..] == s;
    }
    forall n | 0 <= n <= |s| && IsBare(s[..n])
      ensures n <= MatchLength(s)
    {
      BareReach(s, n);
    }
  }

  lemma MatchForm(s: string)
    requires 0 < MatchLength(s)
    ensures IsBraced(s[..MatchLength(s)]) || IsBare(s[..MatchLength(s)])
  {
    var m := s[..MatchLength(s)];
    if s[1] == '{' {
      var k := Index(s[2..], "}");
      NoBrace(s[2..], k);
      assert m[2..|m| - 1] == s[2..][..k];
      assert s[2..][k..k + 1] == "}";
      assert m[|m| - 1] == s[2..][k];
      assert m[..2] == "${";
    }
  }

  lemma BareReach(s: string, n: nat)
    requires n <= |s| && IsBare(s[..n])
    ensures n <= MatchLength(s)
  {
  }

  // ----- replacing -----

  /** The name in a reference, and its default if it has one. */
  function Split(inner: string): (string, Option<string>) {
    var idx, dash := Index(inner, ":-"), Index(inner, "-");
    if 0 <= idx then (inner[..idx], Some(inner[idx + 2..]))
    else if 0 <= dash then (inner[..dash], Some(inner[dash + 1..]))
    else (inner, None)
  }

  /** The replacement of one match. */
  function Replacement(m: string, env: map<string, string>): string
    requires IsBraced(m) || IsBare(m)
  {
    var (name, fallback) := Split(if m[..2] == "${" then m[2..|m| - 1] else m[1..]);
    if name in env && env[name] != "" then env[name]
    else if fallback.Some? then fallback.value
    else m
  }

  /** expandEnvVars: all matches are replaced, from left to right. */
  function ExpandEnvVars(s: string, env: map<string, string>): string {
    var n := MatchLength(s);
    if s == "" then ""
    else if n == 0 then [s[0]] + ExpandEnvVars(s[1..], env)
    else
      MatchForm(s);
      Replacement(s[..n], env) + ExpandEnvVars(s[n..], env)
  }

  // ----- templates -----

  datatype Fallback = NoDefault | ColonDash(text: string) | Dash(text: string)

  datatype Token = Literal(text: string) | Braced(name: string, fallback: Fallback) | Bare(name: string)

  function Inner(name: string, fallback: Fallback): string {
    name + match fallback
           case NoDefault => ""
           case ColonDash(text) => ":-" + text
           case Dash(text) => "-" + text
  }

  function RenderToken(t: Token): string {
    match t
    case Literal(text) => text
    case Braced(name, fallback) => "${" + Inner(name, fallback) + "}"
    case Bare(name) => "$" + name
  }

  function Render(ts: seq<Token>): string {
    if ts == [] then "" else RenderToken(ts[0]) + Render(ts[1..])
  }

  /** What a token stands for: the variable's value unless empty, else the default, else the
      reference itself. */
  function EvalToken(t: Token, env: map<string, string>): string {
    if t.Literal? then t.text
    else if t.name in env && env[t.name] != "" then env[t.name]
    else if t.Bare? || t.fallback.NoDefault? then RenderToken(t)
    else t.fallback.text
  }

  function Eval(ts: seq<Token>, env: map<string, string>): string {
    if ts == [] then "" else EvalToken(ts[0], env) + Eval(ts[1..], env)
  }

  predicate ValidName(name: string) {
    name != "" && '}' !in name && ':' !in name && '-' !in name
  }

  predicate ValidFallback(fallback: Fallback) {
    !fallback.NoDefault? ==>
      '}' !in fallback.text && (fallback.Dash? ==> Index(fallback.text, ":-") < 0)
  }

  predicate ValidToken(t: Token) {
    match t
    case Literal(text) => '$' !in text
    case Braced(name, fallback) => ValidName(name) && ValidFallback(fallback)
    case Bare(name) => IsBare("$" + name)
  }

  /** A bare name is a whole word, which the text behind it must not continue. */
  predicate ValidTokens(ts: seq<Token>) {
    ts != [] ==>
      && ValidToken(ts[0])
      && (ts[0].Bare? ==> Render(ts[1..]) == "" || !IsWord(Render(ts[1..])[0]))
      && ValidTokens(ts[1..])
  }

  lemma IndexBehind(name: string, rest: string, sub: string)
    requires sub != "" && sub[0] !in name
    ensures Index(name + rest, sub) == if Index(rest, sub) < 0 then -1 else |name| + Index(rest, sub)
    decreases |name|
  {
    if name == "" {
      assert name + rest == rest;
    } else {
      var s := name + rest;
      assert s[1..] == name[1..] + rest && s == [s[0]] + s[1..];
      IndexBehind(name[1..], rest, sub);
      assert !OccursAt(s, sub, 0) by {
        assert |sub| <= |s| ==> s[..|sub|][0] == name[0];
      }
    }
  }

  lemma IndexAtStart(sub: string, text: string)
    requires sub != ""
    ensures Index(sub + text, sub) == 0
  {
  }

  lemma IndexAfterDash(text: string)
    requires Index(text, ":-") < 0
    ensures Index("-" + text, ":-") < 0
  {
    IndexBehind("-", text, ":-");
  }

  /** Where the name of a reference ends. */
  lemma InnerIndices(name: string, fallback: Fallback)
    requires ValidName(name) && ValidFallback(fallback)
    ensures Index(Inner(name, fallback), ":-") == if fallback.ColonDash? then |name| else -1
    ensures !fallback.ColonDash? ==> Index(Inner(name, fallback), "-") == if fallback.Dash? then |name| else -1
  {
    match fallback {
      case NoDefault =>
        IndexBehind(name, "", ":-");
        IndexBehind(name, "", "-");
      case ColonDash(text) =>
        IndexBehind(name, ":-" + text, ":-");
        IndexAtStart(":-", text);
      case Dash(text) =>
        IndexBehind(name, "-" + text, ":-");
        IndexAfterDash(text);
        IndexBehind(name, "-" + text, "-");
        IndexAtStart("-", text);
    }
  }

  /** The name and the default are recovered. */
  lemma SplitInner(name: string, fallback: Fallback)
    requires ValidName(name) && ValidFallback(fallback)
    ensures Split(Inner(name, fallback)) == (name, if fallback.NoDefault? then None else Some(fallback.text))
  {
    var inner := Inner(name, fallback);
    InnerIndices(name, fallback);
    assert inner[..|name|] == name;
    assert fallback.ColonDash? ==> inner[|name| + 2..] == fallback.text;
    assert fallback.Dash? ==> inner[|name| + 1..] == fallback.text;
    assert fallback.NoDefault? ==> inner == name;
  }

  lemma RenderedBraced(name: string, fallback: Fallback)
    requires ValidName(name) && ValidFallback(fallback)
    ensures IsBraced(RenderToken(Braced(name, fallback)))
  {
  }

  lemma InnerOfBraced(name: string, fallback: Fallback)
    ensures var m := RenderToken(Braced(name, fallback));
            |m| >= 3 && m[..2] == "${" && m[|m| - 1] == '}' && m[2..|m| - 1] == Inner(name, fallback)
  {
  }

  lemma ReplacedBraced(name: string, fallback: Fallback, env: map<string, string>)
    requires ValidName(name) && ValidFallback(fallback)
    requires IsBraced(RenderToken(Braced(name, fallback)))
    ensures Replacement(RenderToken(Braced(name, fallback)), env) == EvalToken(Braced(name, fallback), env)
  {
    InnerOfBraced(name, fallback);
    SplitInner(name, fallback);
  }

  lemma ReplacedBare(name: string, env: map<string, string>)
    requires IsBare("$" + name)
    ensures Replacement("$" + name, env) == EvalToken(Bare(name), env)
  {
    var m := "$" + name;
    assert m[1..] == name;
    assert m[..2] != "${" by { assert m[..2][1] == m[1]; }
    assert forall c :: c in name ==> IsWord(c) by {
      forall c | c in name ensures IsWord(c) {
        var i :| 0 <= i < |name| && name[i] == c;
        assert m[i + 1] == c;
      }
    }
    IndexBehind(name, "", ":-");
    IndexBehind(name, "", "-");
    assert name + "" == name;
  }

  lemma FirstApart(text: string, rest: string)
    requires text != ""
    ensures text + rest == [text[0]] + (text[1..] + rest)
  {
  }

  lemma CharStays(c: char, s: string, env: map<string, string>)
    requires c != '$'
    ensures ExpandEnvVars([c] + s, env) == [c] + ExpandEnvVars(s, env)
  {
  }

  lemma {:induction false} LiteralStays(text: string, rest: string, env: map<string, string>)
    requires '$' !in text
    ensures ExpandEnvVars(text + rest, env) == text + ExpandEnvVars(rest, env)
  {
    if text == "" {
      assert text + rest == rest;
    } else {
      CharStays(text[0], text[1..] + rest, env);
      LiteralStays(text[1..], rest, env);
      FirstApart(text, rest);
      FirstApart(text, ExpandEnvVars(rest, env));
    }
  }

  lemma MatchReplaced(m: string, rest: string, env: map<string, string>)
    requires IsBraced(m) || IsBare(m)
    requires MatchLength(m + rest) == |m|
    ensures ExpandEnvVars(m + rest, env) == Replacement(m, env) + ExpandEnvVars(rest, env)
  {
  }

  /** Expanding a rendered template is evaluating it: values and defaults come out as they
      are, even where they contain references themselves. */
  lemma {:induction false} ExpandEvaluates(ts: seq<Token>, env: map<string, string>)
    requires ValidTokens(ts)
    ensures ExpandEnvVars(Render(ts), env) == Eval(ts, env)
  {
    if ts == [] {
    } else {
      var rest := Render(ts[1..]);
      ExpandEvaluates(ts[1..], env);
      match ts[0] {
        case Literal(text) =>
          LiteralStays(text, rest, env);
        case Braced(name, fallback) =>
          RenderedBraced(name, fallback);
          var m := RenderToken(ts[0]);
          BracedLength(m, rest);
          MatchReplaced(m, rest, env);
          ReplacedBraced(name, fallback, env);
        case Bare(name) =>
          BareLength("$" + name, rest);
          MatchReplaced("$" + name, rest, env);
          ReplacedBare(name, env);
      }
    }
  }

  lemma ColonDashInDefault(name: string, text: string)
    requires ValidName(name) && 0 <= Index(text, ":-")
    requires IsBraced(RenderToken(Braced(name, Dash(text))))
    ensures |Replacement(RenderToken(Braced(name, Dash(text))), map[])| < |text|
  {
    var m, inner := RenderToken(Braced(name, Dash(text))), Inner(name, Dash(text));
    assert m[2..|m| - 1] == inner && m[..2] == "${";
    IndexBehind(name, "-" + text, ":-");
    IndexBehind("-", text, ":-");
  }

  /** A default behind a dash is taken as written, in every environment, exactly when it is free
      of ":-": otherwise that is where the name is taken to end. */
  lemma DashDefaultIff(name: string, text: string)
    requires ValidName(name) && IsBraced(RenderToken(Braced(name, Dash(text))))
    ensures (forall env ::
              Replacement(RenderToken(Braced(name, Dash(text))), env) == EvalToken(Braced(name, Dash(text)), env))
            <==> Index(text, ":-") < 0
  {
    var t := Braced(name, Dash(text));
    if Index(text, ":-") < 0 {
      NoBraceInDefault(name, text);
      forall env {
        ReplacedBraced(name, Dash(text), env);
      }
    } else {
      ColonDashInDefault(name, text);
      assert |EvalToken(t, map[])| == |text|;
    }
  }

  lemma SplitAtColonDash(cut: string, after: string)
    requires ':' !in cut
    ensures Split(cut + (":-" + after)) == (cut, Some(after))
  {
    IndexBehind(cut, ":-" + after, ":-");
    IndexAtStart(":-", after);
    assert (cut + (":-" + after))[|cut| + 2..] == after;
  }

  /** A text that is one braced reference. */
  lemma ReferenceReplaced(m: string, env: map<string, string>)
    requires IsBraced(m)
    ensures ExpandEnvVars(m, env) == Replacement(m, env)
  {
    BracedLength(m, "");
    MatchReplaced(m, "", env);
    assert m + "" == m && Replacement(m, env) + "" == Replacement(m, env);
  }

  lemma CutReplaced(m: string, inner: string, cut: string, after: string)
    requires |m| >= 3 && m[..2] == "${" && m[|m| - 1] == '}' && m[2..|m| - 1] == inner
    requires inner == cut + (":-" + after) && cut != "" && ':' !in cut && '}' !in cut && '}' !in after
    ensures IsBraced(m) && ExpandEnvVars(m, map[]) == after
  {
    SplitAtColonDash(cut, after);
    ReferenceReplaced(m, map[]);
  }

  /** The failing case: of "${A-b:-c}" only "c" is left, where the default is "b:-c". */
  lemma DashDefaultIsCut(name: string, before: string, after: string)
    requires ValidName(name) && '}' !in before && ':' !in before && '}' !in after
    ensures ExpandEnvVars(RenderToken(Braced(name, Dash(before + (":-" + after)))), map[]) == after
  {
    var fallback := Dash(before + (":-" + after));
    var cut := name + ("-" + before);
    InnerOfBraced(name, fallback);
    ConcatAssociative("-", before, ":-" + after);
    ConcatAssociative(name, "-" + before, ":-" + after);
    CutReplaced(RenderToken(Braced(name, fallback)), Inner(name, fallback), cut, after);
  }

  lemma NoBraceInDefault(name: string, text: string)
    requires IsBraced(RenderToken(Braced(name, Dash(text))))
    ensures '}' !in text
  {
  }

  /** A text without any match is left alone. */
  lemma {:induction false} NothingToExpand(s: string, env: map<string, string>)
    requires forall i :: 0 <= i < |s| ==> MatchLength(s[i..]) == 0
    ensures ExpandEnvVars(s, env) == s
  {
    if s != "" {
      assert s[0..] == s;
      forall i | 0 <= i < |s[1..]| ensures MatchLength(s[1..][i..]) == 0 {
        assert s[1..][i..] == s[i + 1..];
      }
      NothingToExpand(s[1..], env);
    }
  }

  // ----- any text -----

  /** A letter, a digit or an underscore, by its code. */
  ghost predicate IsNameChar(c: char, first: bool) {
    var n := c as int;
    65 <= n <= 90 || 97 <= n <= 122 || n == 95 || (!first && 48 <= n <= 57)
  }

  /** The text is a reference with this inside: in braces, anything but a closing brace; or a name. */
  ghost predicate IsReference(m: string, inner: string) {
    || (m == "${" + inner + "}" && inner != "" && '}' !in inner)
    || (m == "$" + inner && inner != "" && forall i :: 0 <= i < |inner| ==> IsNameChar(inner[i], i == 0))
  }

  /** The longest reference that the text begins with. */
  ghost predicate BeginsWith(s: string, m: string, inner: string) {
    m <= s && IsReference(m, inner) && (m == "$" + inner && |m| < |s| ==> !IsNameChar(s[|m|], false))
  }

  /** The name and the default of a reference: what is before and after the first ":-", or else
      before and after the first dash, or else the whole and none. */
  ghost predicate HasParts(inner: string, name: string, fallback: Option<string>) {
    if exists i :: IsColonDash(inner, i) then
      fallback.Some? && inner == name + ":-" + fallback.value && forall i :: i < |name| ==> !IsColonDash(inner, i)
    else if '-' in inner then
      fallback.Some? && inner == name + "-" + fallback.value && '-' !in name
    else
      fallback.None? && inner == name
  }

  ghost predicate IsColonDash(s: string, i: int) {
    0 <= i < |s| - 1 && s[i] == ':' && s[i + 1] == '-'
  }

  /** A reference stands for the value of its variable unless that is empty or missing, else for its
      default, else for itself. */
  ghost predicate StandsFor(m: string, inner: string, env: map<string, string>, v: string) {
    exists name, fallback :: HasParts(inner, name, fallback) && IsChosen(m, name, fallback, env, v)
  }

  ghost predicate IsChosen(m: string, name: string, fallback: Option<string>, env: map<string, string>, v: string) {
    if name in env && env[name] != "" then v == env[name]
    else if fallback.Some? then v == fallback.value
    else v == m
  }

  /** A reference at the start of the text, and what stands for it at the start of the result. */
  ghost predicate StandsFirst(s: string, m: string, inner: string, env: map<string, string>, v: string, r: string) {
    BeginsWith(s, m, inner) && StandsFor(m, inner, env, v) && v <= r && |m| > 0
  }

  /** The result has, in place of each reference, what that stands for, and all other characters as
      they are; references are found from left to right, each behind the one before. */
  ghost predicate Expands(s: string, env: map<string, string>, r: string)
    decreases |s|
  {
    if s == "" then r == ""
    else if exists m, inner :: BeginsWith(s, m, inner) then
      exists m, inner, v :: StandsFirst(s, m, inner, env, v, r) && Expands(s[|m|..], env, r[|v|..])
    else r != "" && r[0] == s[0] && Expands(s[1..], env, r[1..])
  }

  lemma NameChars(c: char)
    ensures IsNameChar(c, true) <==> IsLetter(c)
    ensures IsNameChar(c, false) <==> IsWord(c)
  {
  }

  lemma BracedReference(m: string)
    requires IsBraced(m)
    ensures IsReference(m, m[2..|m| - 1])
  {
    assert m == "${" + m[2..|m| - 1] + "}";
  }

  lemma BareReference(m: string)
    requires IsBare(m)
    ensures IsReference(m, m[1..]) && m == "$" + m[1..]
  {
    forall i | 0 <= i < |m[1..]| ensures IsNameChar(m[1..][i], i == 0) {
      NameChars(m[i + 1]);
    }
  }

  lemma ReferenceForm(m: string, inner: string)
    requires IsReference(m, inner)
    ensures IsBraced(m) || IsBare(m)
    ensures m == "$" + inner ==> (forall i :: 0 <= i < |inner| ==> IsNameChar(inner[i], i == 0)) && IsBare(m)
    ensures inner == if m[..2] == "${" then m[2..|m| - 1] else m[1..]
  {
    if m == "${" + inner + "}" && inner != "" && '}' !in inner {
      assert m[..2] == "${" && m[2..|m| - 1] == inner;
      assert m != "$" + inner by {
        assert |m| == |inner| + 3;
      }
    } else {
      assert m[1..] == inner;
      forall i | 1 <= i < |m| ensures IsWord(m[i]) && (i == 1 ==> IsLetter(m[i])) {
        assert m[i] == inner[i - 1];
        NameChars(m[i]);
      }
      assert m[1] != '{';
      assert m[..2][1] == m[1];
    }
  }

  lemma ColonDashAt(s: string, i: int)
    ensures IsColonDash(s, i) <==> OccursAt(s, ":-", i)
  {
    if 0 <= i < |s| - 1 {
      assert s[i..i + 2] == [s[i], s[i + 1]];
    }
  }

  lemma DashAt(s: string, i: int)
    ensures (0 <= i < |s| && s[i] == '-') <==> OccursAt(s, "-", i)
  {
    if 0 <= i < |s| {
      assert s[i..i + 1] == [s[i]];
    }
  }

  lemma ColonDashIndex(inner: string)
    ensures var k := Index(inner, ":-");
            if k < 0 then forall i :: !IsColonDash(inner, i)
            else IsColonDash(inner, k) && forall i :: i < k ==> !IsColonDash(inner, i)
  {
    forall i ensures IsColonDash(inner, i) <==> OccursAt(inner, ":-", i) {
      ColonDashAt(inner, i);
    }
  }

  lemma DashIndex(inner: string)
    ensures var k := Index(inner, "-");
            if k < 0 then '-' !in inner else k < |inner| && inner[k] == '-' && '-' !in inner[..k]
  {
    forall i ensures (0 <= i < |inner| && inner[i] == '-') <==> OccursAt(inner, "-", i) {
      DashAt(inner, i);
    }
  }

  lemma PartsAtColon(inner: string, name: string, fallback: Option<string>)
    requires exists i :: IsColonDash(inner, i)
    ensures HasParts(inner, name, fallback) <==> Split(inner) == (name, fallback)
  {
    ColonDashIndex(inner);
    var k := Index(inner, ":-");
    assert inner == inner[..k] + ":-" + inner[k + 2..];
    if HasParts(inner, name, fallback) {
      assert inner[|name|] == ':' && inner[|name| + 1] == '-';
      assert IsColonDash(inner, |name|);
      assert k == |name|;
      assert inner[..k] == name && inner[k + 2..] == fallback.value;
    }
  }

  lemma PartsAtDash(inner: string, name: string, fallback: Option<string>)
    requires !exists i :: IsColonDash(inner, i)
    requires '-' in inner
    ensures HasParts(inner, name, fallback) <==> Split(inner) == (name, fallback)
  {
    ColonDashIndex(inner);
    DashIndex(inner);
    var k := Index(inner, "-");
    assert inner == inner[..k] + "-" + inner[k + 1..];
    if HasParts(inner, name, fallback) {
      assert inner[|name|] == '-' && inner[..|name|] == name;
      assert k <= |name| by { DashAt(inner, |name|); }
      assert forall i :: 0 <= i < |name| ==> name[i] == inner[i];
      assert k == |name|;
      assert inner[k + 1..] == fallback.value;
    }
  }

  /** The parts of a reference are those that Split gives. */
  lemma PartsIff(inner: string, name: string, fallback: Option<string>)
    ensures HasParts(inner, name, fallback) <==> Split(inner) == (name, fallback)
  {
    if exists i :: IsColonDash(inner, i) {
      PartsAtColon(inner, name, fallback);
    } else if '-' in inner {
      PartsAtDash(inner, name, fallback);
    } else {
      ColonDashIndex(inner);
      DashIndex(inner);
    }
  }

  lemma StandsForReplacement(m: string, inner: string, env: map<string, string>, v: string)
    requires IsReference(m, inner) && (IsBraced(m) || IsBare(m))
    ensures StandsFor(m, inner, env, v) <==> v == Replacement(m, env)
  {
    ReferenceForm(m, inner);
    var (name, fallback) := Split(inner);
    PartsIff(inner, name, fallback);
    if StandsFor(m, inner, env, v) {
      var n, f :| HasParts(inner, n, f) && IsChosen(m, n, f, env, v);
      PartsIff(inner, n, f);
    }
    if v == Replacement(m, env) {
      assert IsChosen(m, name, fallback, env, v);
    }
  }

  /** The longest reference at the start is the match. */
  lemma BeginsWithMatch(s: string, m: string, inner: string)
    requires BeginsWith(s, m, inner)
    ensures 0 < MatchLength(s) && m == s[..MatchLength(s)]
  {
    ReferenceForm(m, inner);
    assert s == m + s[|m|..];
    if m == "$" + inner {
      if |m| < |s| { NameChars(s[|m|]); }
      BareLength(m, s[|m|..]);
    } else {
      BracedLength(m, s[|m|..]);
    }
  }

  lemma BracedBegins(s: string, m: string)
    requires m <= s && IsBraced(m)
    ensures BeginsWith(s, m, m[2..|m| - 1])
  {
    BracedReference(m);
    assert |"$" + m[2..|m| - 1]| == |m| - 2;
  }

  lemma BareBegins(s: string, m: string)
    requires m <= s && IsBare(m) && (|m| < |s| ==> !IsWord(s[|m|]))
    ensures BeginsWith(s, m, m[1..])
  {
    BareReference(m);
    if |m| < |s| {
      NameChars(s[|m|]);
    }
  }

  lemma MatchBegins(s: string) returns (inner: string)
    requires 0 < MatchLength(s)
    ensures BeginsWith(s, s[..MatchLength(s)], inner)
  {
    MatchForm(s);
    var n := MatchLength(s);
    var m := s[..n];
    assert m[1] == s[1];
    if s[1] == '{' {
      BracedBegins(s, m);
      inner := m[2..n - 1];
    } else {
      assert m[..2][1] == m[1];
      assert n < |s| ==> s[1..][WordLength(s[1..])] == s[n];
      BareBegins(s, m);
      inner := m[1..];
    }
  }

  lemma PrefixSplit(v: string, rest: string, r: string)
    ensures v <= r && r[|v|..] == rest <==> r == v + rest
  {
  }

  lemma NothingBegins(s: string)
    requires MatchLength(s) == 0
    ensures !exists m, inner :: BeginsWith(s, m, inner)
  {
    forall m, inner ensures !BeginsWith(s, m, inner) {
      if BeginsWith(s, m, inner) {
        BeginsWithMatch(s, m, inner);
      }
    }
  }

  lemma {:induction false} ExpandsReference(s: string, env: map<string, string>, r: string)
    requires 0 < MatchLength(s) && Expands(s, env, r)
    ensures r == ExpandEnvVars(s, env)
    decreases |s|, 0
  {
    var n := MatchLength(s);
    var inner := MatchBegins(s);
    MatchForm(s);
    var m, inner', v :| StandsFirst(s, m, inner', env, v, r) && Expands(s[|m|..], env, r[|v|..]);
    BeginsWithMatch(s, m, inner');
    StandsForReplacement(m, inner', env, v);
    ExpandIff(s[n..], env, r[|v|..]);
    PrefixSplit(v, r[|v|..], r);
  }

  lemma {:induction false} ReferenceExpands(s: string, env: map<string, string>)
    requires 0 < MatchLength(s)
    ensures Expands(s, env, ExpandEnvVars(s, env))
    decreases |s|, 0
  {
    var n := MatchLength(s);
    var inner := MatchBegins(s);
    MatchForm(s);
    var m, r := s[..n], ExpandEnvVars(s, env);
    var v := Replacement(m, env);
    StandsForReplacement(m, inner, env, v);
    PrefixSplit(v, ExpandEnvVars(s[n..], env), r);
    ExpandIff(s[n..], env, r[|v|..]);
    assert StandsFirst(s, m, inner, env, v, r);
  }

  lemma PlainExpands(s: string, env: map<string, string>, r: string)
    requires s != "" && MatchLength(s) == 0
    ensures Expands(s, env, r) <==> r != "" && r[0] == s[0] && Expands(s[1..], env, r[1..])
  {
    NothingBegins(s);
  }

  lemma FirstIs(r: string, c: char, rest: string)
    ensures r == [c] + rest <==> r != "" && r[0] == c && r[1..] == rest
  {
  }

  /** The result of an expansion is what the references stand for, for every text. */
  lemma {:induction false} ExpandIff(s: string, env: map<string, string>, r: string)
    ensures Expands(s, env, r) <==> r == ExpandEnvVars(s, env)
    decreases |s|, 1
  {
    if s == "" {
    } else if MatchLength(s) == 0 {
      PlainExpands(s, env, r);
      if r != "" {
        ExpandIff(s[1..], env, r[1..]);
      }
      FirstIs(r, s[0], ExpandEnvVars(s[1..], env));
    } else {
      ReferenceExpands(s, env);
      if Expands(s, env, r) {
        ExpandsReference(s, env, r);
      }
    }
  }
}
