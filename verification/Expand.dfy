/** Expansion of `${VAR}` in configuration text (`crates/config/src/loader.rs`). */
module Expand {
  import opened Prelude

  const MAX_CONFIG_BYTES: nat := 16 * 1024 * 1024

  /** Where the scanner is. In a basic string the character after a backslash is taken as it is. */
  datatype Mode = Code | Basic(escaped: bool) | Literal

  datatype Failure = TooLarge | Unterminated | EmptyName | NotSet(name: string)

  datatype Result = Ok(text: string) | Err(failure: Failure)

  type Env = map<string, string>

  /** Bytes of a character in UTF-8. */
  function Width(c: char): nat {
    if c < '\U{80}' then 1 else if c < '\U{800}' then 2 else if c < '\U{10000}' then 3 else 4
  }

  function Bytes(s: string): nat { if s == "" then 0 else Bytes(s[..|s| - 1]) + Width(s[|s| - 1]) }

  /** Characters up to U+007F take one byte each, up to U+07FF two, up to U+FFFF three and the others
      four (section 3 of RFC 3629). */
  predicate Takes(n: nat, c: char) {
    match n
    case 1 => c as int <= 0x7F
    case 2 => 0x80 <= c as int <= 0x7FF
    case 3 => 0x800 <= c as int <= 0xFFFF
    case 4 => 0x10000 <= c as int
    case _ => false
  }

  lemma {:induction false} BytesEach(s: string, n: nat)
    requires forall i | 0 <= i < |s| :: Takes(n, s[i])
    ensures Bytes(s) == n * |s|
  {
    if s != "" {
      BytesEach(s[..|s| - 1], n);
      assert Takes(n, s[|s| - 1]);
    }
  }

  /** How many characters the rest of the line has, its newline included. */
  function LineLength(s: string): (n: nat)
    ensures n <= |s|
  {
    if s == "" then 0 else if s[0] == '\n' then 1 else 1 + LineLength(s[1..])
  }

  /** The position of the brace that ends a name. */
  function NameEnd(s: string): (n: Option<nat>)
    ensures n.Some? ==> n.value < |s| && s[n.value] == '}'
  {
    if s == "" then None
    else if s[0] == '}' then Some(0)
    else
      var n := NameEnd(s[1..]);
      if n.None? then None else Some(n.value + 1)
  }

  /** What a `$` followed by `s` stands for, and how much of `s` belongs to it. */
  datatype Dollar = Text(out: string, used: nat) | Bad(failure: Failure)

  function TryExpand(env: Env, s: string): (d: Dollar)
    ensures d.Text? ==> d.used <= |s|
  {
    if s != "" && s[0] == '$' then
      if |s| > 1 && s[1] == '{' then Text("${", 2) else Text("$", 1)
    else if s == "" || s[0] != '{' then Text("$", 0)
    else
      var n := NameEnd(s[1..]);
      if n.None? then Bad(Unterminated)
      else
        var name := s[1..][..n.value];
        if name == "" then Bad(EmptyName)
        else if name in env then Text(env[name], n.value + 2)
        else Bad(NotSet(name))
  }

  function Next(m: Mode, c: char): Mode {
    match m
    case Code => if c == '"' then Basic(false) else if c == '\'' then Literal else Code
    case Basic(escaped) =>
      if escaped then Basic(false) else if c == '\\' then Basic(true) else if c == '"' then Code else m
    case Literal => if c == '\'' then Code else Literal
  }

  predicate Expands(m: Mode) { m == Code || m == Basic(false) }

  /** One round of the scan: the mode, what has been written, and how much was read; or an error. */
  datatype Round = Go(mode: Mode, out: string, used: nat) | Stop(failure: Failure)

  function Step(env: Env, m: Mode, out: string, s: string): (r: Round)
    requires s != ""
    ensures r.Go? ==> 1 <= r.used <= |s|
  {
    if Bytes(out) > MAX_CONFIG_BYTES then Stop(TooLarge)
    else if m == Code && s[0] == '#' then
      var n := 1 + LineLength(s[1..]);
      Go(Code, out + s[..n], n)
    else if Expands(m) && s[0] == '$' then
      var d := TryExpand(env, s[1..]);
      if d.Bad? then Stop(d.failure) else Go(m, out + d.out, 1 + d.used)
    else Go(Next(m, s[0]), out + [s[0]], 1)
  }

  /** The scan from some point on: what has been written, and what is still to be read. */
  function Scan(env: Env, m: Mode, out: string, s: string): Result
    decreases |s|
  {
    if s == "" then Ok(out)
    else
      match Step(env, m, out, s)
      case Stop(f) => Err(f)
      case Go(m2, out2, used) => Scan(env, m2, out2, s[used..])
  }

  // --- what a dollar means -----------------------------------------------------------------------

  lemma {:induction false} FirstBrace(name: string, rest: string)
    requires '}' !in name
    ensures NameEnd(name + "}" + rest) == Some(|name|)
    decreases |name|
  {
    var s := name + "}" + rest;
    if name == "" {
      assert s[0] == '}';
    } else {
      FirstBrace(name[1..], rest);
      assert s[1..] == name[1..] + "}" + rest;
    }
  }

  lemma {:induction false} NoBrace(s: string)
    requires '}' !in s
    ensures NameEnd(s) == None
    decreases |s|
  {
    if s != "" { NoBrace(s[1..]); }
  }

  /** `${NAME}` is replaced by the variable's value, which is not read again; a name that is empty
      or not set is an error. */
  lemma Substituted(env: Env, m: Mode, out: string, name: string, rest: string)
    requires '}' !in name && Expands(m) && Bytes(out) <= MAX_CONFIG_BYTES
    ensures Scan(env, m, out, "${" + name + "}" + rest) ==
              if name == "" then Err(EmptyName) else if name in env then Scan(env, m, out + env[name], rest)
                                                else Err(NotSet(name))
  {
    hide Bytes, LineLength, NameEnd;
    var s := "${" + name + "}" + rest;
    FirstBrace(name, rest);
    assert s[1..] == "{" + (name + "}" + rest) && s[1..][1..] == name + "}" + rest;
    assert (name + "}" + rest)[..|name|] == name;
    assert s[|name| + 3..] == rest;
  }

  /** A `${` that is never closed is an error, wherever the file ends. */
  lemma Unclosed(env: Env, m: Mode, out: string, s: string)
    requires '}' !in s && Expands(m) && Bytes(out) <= MAX_CONFIG_BYTES
    ensures Scan(env, m, out, "${" + s) == Err(Unterminated)
  {
    hide Bytes, LineLength, NameEnd;
    NoBrace(s);
    assert ("${" + s)[1..] == "{" + s && ("{" + s)[1..] == s;
  }

  /** Two dollars stand for one, even before a brace; one that nothing follows stands for itself. */
  lemma DollarSigns(env: Env, m: Mode, out: string, rest: string)
    requires Expands(m) && Bytes(out) <= MAX_CONFIG_BYTES
    ensures Scan(env, m, out, "$$" + rest) ==
              if rest != "" && rest[0] == '{' then Scan(env, m, out + "${", rest[1..])
              else Scan(env, m, out + "$", rest)
    ensures rest == "" || (rest[0] != '{' && rest[0] != '$') ==>
              Scan(env, m, out, "$" + rest) == Scan(env, m, out + "$", rest)
  {
    hide Bytes, LineLength, NameEnd;
    assert ("$$" + rest)[1..] == "$" + rest && ("$" + rest)[1..] == rest && ("$$" + rest)[2..] == rest;
    if rest != "" && rest[0] == '{' { assert ("$$" + rest)[3..] == rest[1..]; }
  }

  // --- what is never touched -----------------------------------------------------------------

  lemma {:induction false} BytesAppend(a: string, b: string)
    ensures Bytes(a + b) == Bytes(a) + Bytes(b)
    decreases |b|
  {
    if b == "" {
      assert a + b == a;
    } else {
      BytesAppend(a, b[..|b| - 1]);
      assert (a + b)[..|a + b| - 1] == a + b[..|b| - 1];
    }
  }

  lemma {:induction false} LineEnds(c: string, rest: string)
    requires '\n' !in c
    ensures LineLength(c + "\n" + rest) == |c| + 1
    decreases |c|
  {
    var s := c + "\n" + rest;
    if c == "" {
      assert s[0] == '\n';
    } else {
      LineEnds(c[1..], rest);
      assert s[1..] == c[1..] + "\n" + rest;
    }
  }

  /** A comment outside strings is copied as it is, whatever it contains. */
  lemma CommentVerbatim(env: Env, out: string, c: string, rest: string)
    requires '\n' !in c && Bytes(out) <= MAX_CONFIG_BYTES
    ensures Scan(env, Code, out, "#" + c + "\n" + rest) == Scan(env, Code, out + "#" + c + "\n", rest)
  {
    var s := "#" + c + "\n" + rest;
    assert s[1..] == c + "\n" + rest;
    LineEnds(c, rest);
    assert s[..|c| + 2] == "#" + c + "\n" && s[|c| + 2..] == rest;
    assert out + ("#" + c + "\n") == out + "#" + c + "\n";
  }

  /** A literal string is copied as it is. */
  lemma {:induction false} LiteralVerbatim(env: Env, out: string, l: string, rest: string)
    requires '\'' !in l && (rest != "" || Bytes(out + l) <= MAX_CONFIG_BYTES)
    ensures Scan(env, Literal, out, l + "'" + rest) == Scan(env, Code, out + l + "'", rest)
    decreases |l|
  {
    hide Scan, Bytes;
    BytesAppend(out, l);
    var s := l + "'" + rest;
    if Bytes(out) > MAX_CONFIG_BYTES {
      assert out + (l + "'") == out + l + "'";
      Overrun(env, Literal, Code, out, l + "'", s, rest);
      return;
    }
    PlainStep(env, Literal, out, s);
    if l == "" {
      assert s[0] == '\'' && s[1..] == rest && out + l == out;
    } else {
      assert s[1..] == l[1..] + "'" + rest;
      assert out + [l[0]] + l[1..] == out + l;
      LiteralVerbatim(env, out + [l[0]], l[1..], rest);
    }
  }

  /** So is a comment on the last line, ended by the file. */
  lemma CommentAtEnd(env: Env, out: string, c: string)
    requires '\n' !in c && Bytes(out) <= MAX_CONFIG_BYTES
    ensures Scan(env, Code, out, "#" + c) == Ok(out + "#" + c)
  {
    var s := "#" + c;
    LineToEnd(c);
    assert s[1..] == c && s[..|c| + 1] == s && s[|c| + 1..] == "" && out + s == out + "#" + c;
  }

  lemma {:induction false} LineToEnd(c: string)
    requires '\n' !in c
    ensures LineLength(c) == |c|
    decreases |c|
  {
    if c != "" { LineToEnd(c[1..]); }
  }

  // --- escaping -----------------------------------------------------------------------------------

  /** Doubling `$` wherever it would be expanded. */
  function Escape(m: Mode, t: string): string
    decreases |t|
  {
    if t == "" then ""
    else if m == Code && t[0] == '#' then
      var n := 1 + LineLength(t[1..]);
      t[..n] + Escape(Code, t[n..])
    else (if Expands(m) && t[0] == '$' then "$$" else [t[0]]) + Escape(Next(m, t[0]), t[1..])
  }

  lemma {:induction false} LineOfEscaped(t: string, more: string)
    requires LineLength(t) < |t| || more == "" || (t != "" && t[|t| - 1] == '\n')
    ensures LineLength(t + more) == LineLength(t)
    decreases |t|
  {
    if t == "" {
      assert t + more == "";
    } else if t[0] == '\n' {
      assert (t + more)[0] == '\n';
    } else {
      LineOfEscaped(t[1..], more);
      assert (t + more)[1..] == t[1..] + more;
    }
  }

  /** The line a comment is on does not change when what follows it is escaped. */
  lemma CommentLine(t: string)
    requires t != "" && t[0] == '#'
    ensures var n := 1 + LineLength(t[1..]); LineLength((t[..n] + Escape(Code, t[n..]))[1..]) == n - 1
  {
    var n := 1 + LineLength(t[1..]);
    var line, more := t[1..][..n - 1], Escape(Code, t[n..]);
    WholeLine(t[1..]);
    assert (t[..n] + more)[1..] == line + more;
    assert n == |t| ==> t[n..] == "";
    LineOfEscaped(line, more);
  }

  lemma {:induction false} WholeLine(s: string)
    ensures var l := s[..LineLength(s)]; LineLength(l) == |l| && (|l| < |s| ==> l != "" && l[|l| - 1] == '\n')
    decreases |s|
  {
    var l := s[..LineLength(s)];
    if s != "" && s[0] != '\n' {
      WholeLine(s[1..]);
      assert l[1..] == s[1..][..LineLength(s[1..])];
    }
  }

  /** A doubled dollar comes out single, and whatever follows is read as before. */
  lemma DollarOnce(env: Env, m: Mode, out: string, t: string)
    requires Expands(m) && t != "" && t[0] == '$' && Bytes(out) <= MAX_CONFIG_BYTES
             && Bytes(out + "$") <= MAX_CONFIG_BYTES
    ensures Scan(env, m, out, Escape(m, t)) == Scan(env, m, out + "$", Escape(m, t[1..]))
  {
    hide Bytes;
    var rest := Escape(m, t[1..]);
    var s := Escape(m, t);
    EscapedDollar(m, t);
    assert s[1..] == "$" + rest;
    if rest != "" && rest[0] == '{' {
      assert TryExpand(env, s[1..]) == Text("${", 2);
      assert s[3..] == rest[1..] && out + "${" == out + "$" + ['{'];
      PlainStep(env, m, out + "$", rest);
      assert Scan(env, m, out, s) == Scan(env, m, out + "${", s[3..]);
    } else {
      assert TryExpand(env, s[1..]) == Text("$", 1);
      assert s[2..] == rest;
    }
  }

  lemma EscapedDollar(m: Mode, t: string)
    requires Expands(m) && t != "" && t[0] == '$'
    ensures Escape(m, t) == "$$" + Escape(m, t[1..])
  {
  }

  /** Once too much has been written, anything left to read is one thing too many. */
  lemma Overrun(env: Env, m: Mode, m2: Mode, out: string, more: string, s: string, rest: string)
    requires Bytes(out) > MAX_CONFIG_BYTES && s != "" && rest != ""
    ensures Scan(env, m, out, s) == Scan(env, m2, out + more, rest) == Err(TooLarge)
  {
    BytesAppend(out, more);
    hide Bytes, TryExpand, LineLength;
  }

  lemma PlainStep(env: Env, m: Mode, out: string, s: string)
    requires s != "" && !(m == Code && s[0] == '#') && !(Expands(m) && s[0] == '$') && Bytes(out) <= MAX_CONFIG_BYTES
    ensures Scan(env, m, out, s) == Scan(env, Next(m, s[0]), out + [s[0]], s[1..])
  {
    hide Bytes, TryExpand, LineLength;
  }

  lemma PlainOnce(env: Env, m: Mode, out: string, t: string)
    requires t != "" && !(m == Code && t[0] == '#') && !(Expands(m) && t[0] == '$') && Bytes(out) <= MAX_CONFIG_BYTES
    ensures Scan(env, m, out, Escape(m, t)) == Scan(env, Next(m, t[0]), out + [t[0]], Escape(Next(m, t[0]), t[1..]))
  {
    hide Bytes, Scan;
    PlainStep(env, m, out, Escape(m, t));
    assert Escape(m, t)[1..] == Escape(Next(m, t[0]), t[1..]);
  }

  lemma CommentOnce(env: Env, out: string, t: string, n: nat)
    requires t != "" && t[0] == '#' && n == 1 + LineLength(t[1..]) && Bytes(out) <= MAX_CONFIG_BYTES
    ensures Scan(env, Code, out, Escape(Code, t)) == Scan(env, Code, out + t[..n], Escape(Code, t[n..]))
  {
    hide Bytes, TryExpand, LineLength;
    var s := Escape(Code, t);
    CommentLine(t);
    assert s == t[..n] + Escape(Code, t[n..]);
    assert s[..n] == t[..n] && s[n..] == Escape(Code, t[n..]);
  }

  /** Escaping and then expanding gives the text back, in every environment. */
  lemma {:induction false} RoundTrip(env: Env, m: Mode, out: string, t: string)
    requires Bytes(out + t) <= MAX_CONFIG_BYTES
    ensures Scan(env, m, out, Escape(m, t)) == Ok(out + t)
    decreases |t|
  {
    hide Bytes, LineLength, Scan, Escape;
    BytesAppend(out, t);
    if t == "" {
      NothingLeft(env, m, out);
    } else if m == Code && t[0] == '#' {
      var n := 1 + LineLength(t[1..]);
      CommentOnce(env, out, t, n);
      assert out + t[..n] + t[n..] == out + t;
      RoundTrip(env, Code, out + t[..n], t[n..]);
    } else {
      assert out + [t[0]] + t[1..] == out + t;
      BytesAppend(out + [t[0]], t[1..]);
      RoundTrip(env, Next(m, t[0]), out + [t[0]], t[1..]);
      if Expands(m) && t[0] == '$' {
        DollarOnce(env, m, out, t);
      } else {
        PlainOnce(env, m, out, t);
      }
    }
  }

  lemma NothingLeft(env: Env, m: Mode, out: string)
    ensures Scan(env, m, out, Escape(m, "")) == Ok(out + "")
  {
    assert out + "" == out;
  }

  lemma {:induction false} NothingToEscape(m: Mode, t: string)
    requires '$' !in t
    ensures Escape(m, t) == t
    decreases |t|
  {
    hide LineLength;
    if t == "" {
    } else if m == Code && t[0] == '#' {
      var n := 1 + LineLength(t[1..]);
      NothingToEscape(Code, t[n..]);
      assert t[..n] + t[n..] == t;
    } else {
      NothingToEscape(Next(m, t[0]), t[1..]);
      assert [t[0]] + t[1..] == t;
    }
  }

  /** Text without a dollar expands to itself. */
  lemma NothingToExpand(env: Env, t: string)
    requires '$' !in t && Bytes(t) <= MAX_CONFIG_BYTES
    ensures Scan(env, Code, "", t) == Ok(t)
  {
    NothingToEscape(Code, t);
    assert "" + t == t;
    RoundTrip(env, Code, "", t);
  }
}
