/** What a configuration text means, told by what it consists of, and that its expansion is that. */
module ExpandMeaning {
  import opened Prelude
  import opened Expand

  /** What a basic string consists of. */
  datatype Part = Chars(text: string) | Escaped(c: char) | Var(name: string) | Two | TwoBrace | Lone

  /** What a file consists of: code, comments, strings of both kinds, and dollars in code. */
  datatype Piece =
    | Plain(text: string)
    | Comment(text: string)
    | LiteralString(text: string)
    | BasicString(parts: seq<Part>)
    | Dollars(part: Part)

  function PartText(p: Part): string {
    match p
    case Chars(t) => t
    case Escaped(c) => ['\\', c]
    case Var(n) => "${" + n + "}"
    case Two => "$$"
    case TwoBrace => "$${"
    case Lone => "$"
  }

  /** A variable stands for its value; two dollars for one; all else for itself. */
  function PartMeans(env: Env, p: Part): string {
    match p
    case Var(n) => if n in env then env[n] else ""
    case Two => "$"
    case TwoBrace => "${"
    case _ => PartText(p)
  }

  /** A part as it may stand before `rest`: what a dollar means depends on the character after it. */
  predicate PartOk(env: Env, p: Part, rest: string) {
    match p
    case Chars(t) => '"' !in t && '\\' !in t && '$' !in t
    case Escaped(_) => true
    case Var(n) => n != "" && '}' !in n && n in env
    case Two => rest == "" || rest[0] != '{'
    case TwoBrace => true
    case Lone => rest == "" || (rest[0] != '{' && rest[0] != '$')
  }

  function PartsText(ps: seq<Part>): string { if ps == [] then "" else PartText(ps[0]) + PartsText(ps[1..]) }

  function PartsMean(env: Env, ps: seq<Part>): string {
    if ps == [] then "" else PartMeans(env, ps[0]) + PartsMean(env, ps[1..])
  }

  predicate PartsOk(env: Env, ps: seq<Part>) {
    ps != [] ==> PartOk(env, ps[0], PartsText(ps[1..]) + "\"") && PartsOk(env, ps[1..])
  }

  function PieceText(p: Piece): string {
    match p
    case Plain(t) => t
    case Comment(t) => "#" + t + "\n"
    case LiteralString(t) => "'" + t + "'"
    case BasicString(ps) => "\"" + PartsText(ps) + "\""
    case Dollars(q) => PartText(q)
  }

  function PieceMeans(env: Env, p: Piece): string {
    match p
    case BasicString(ps) => "\"" + PartsMean(env, ps) + "\""
    case Dollars(q) => PartMeans(env, q)
    case _ => PieceText(p)
  }

  predicate PieceOk(env: Env, p: Piece, rest: string) {
    match p
    case Plain(t) => '\'' !in t && '"' !in t && '#' !in t && '$' !in t
    case Comment(t) => '\n' !in t
    case LiteralString(t) => '\'' !in t
    case BasicString(ps) => PartsOk(env, ps)
    case Dollars(q) => (q.Var? || q.Two? || q.TwoBrace? || q.Lone?) && PartOk(env, q, rest)
  }

  function FileText(ps: seq<Piece>): string { if ps == [] then "" else PieceText(ps[0]) + FileText(ps[1..]) }

  function Meaning(env: Env, ps: seq<Piece>): string {
    if ps == [] then "" else PieceMeans(env, ps[0]) + Meaning(env, ps[1..])
  }

  /** The pieces of a text that goes on with `rest`. */
  predicate PiecesOk(env: Env, ps: seq<Piece>, rest: string) {
    ps != [] ==> PieceOk(env, ps[0], FileText(ps[1..]) + rest) && PiecesOk(env, ps[1..], rest)
  }

  lemma PrefixFits(a: string, b: string)
    requires Bytes(a + b) <= MAX_CONFIG_BYTES
    ensures Bytes(a) <= MAX_CONFIG_BYTES
  {
    BytesAppend(a, b);
  }

  /** A piece of text read when too much has been written already. */
  lemma Outgrown(env: Env, m: Mode, m2: Mode, out: string, mean: string, t: string, rest: string)
    requires Bytes(out) > MAX_CONFIG_BYTES && (rest != "" || Bytes(out + mean) <= MAX_CONFIG_BYTES)
    requires t != ""
    ensures Scan(env, m, out, t + rest) == Scan(env, m2, out + mean, rest)
  {
    hide Scan, Bytes;
    if rest == "" { PrefixFits(out, mean); } else { Overrun(env, m, m2, out, mean, t + rest, rest); }
  }

  /** Characters without a special meaning, in any mode they leave as it is. */
  lemma {:induction false} CharsCopied(env: Env, m: Mode, out: string, t: string, rest: string)
    requires Expands(m) && (rest != "" || Bytes(out + t) <= MAX_CONFIG_BYTES) && '"' !in t && '$' !in t
    requires if m == Code then '\'' !in t && '#' !in t else '\\' !in t
    ensures Scan(env, m, out, t + rest) == Scan(env, m, out + t, rest)
    decreases |t|
  {
    hide Scan, Bytes;
    if t == "" {
      assert t + rest == rest && out + t == out;
    } else {
      var s := t + rest;
      if Bytes(out) > MAX_CONFIG_BYTES {
        Outgrown(env, m, m, out, t, t, rest);
        return;
      }
      PlainStep(env, m, out, s);
      assert s[1..] == t[1..] + rest && out + [t[0]] + t[1..] == out + t;
      CharsCopied(env, m, out + [t[0]], t[1..], rest);
    }
  }

  /** A backslash in a basic string and the character after it are copied; neither a dollar nor a
      quote counts there. */
  lemma EscapeCopied(env: Env, out: string, c: char, rest: string)
    requires rest != "" || Bytes(out + ['\\', c]) <= MAX_CONFIG_BYTES
    ensures Scan(env, Basic(false), out, ['\\', c] + rest) == Scan(env, Basic(false), out + ['\\', c], rest)
  {
    hide Scan, Bytes;
    var s := ['\\', c] + rest;
    if Bytes(out) > MAX_CONFIG_BYTES {
      Outgrown(env, Basic(false), Basic(false), out, ['\\', c], ['\\', c], rest);
      return;
    }
    PlainStep(env, Basic(false), out, s);
    assert s[1..] == [c] + rest && out + ['\\'] + [c] == out + ['\\', c];
    if Bytes(out + ['\\']) > MAX_CONFIG_BYTES {
      Outgrown(env, Basic(true), Basic(false), out + ['\\'], [c], [c], rest);
      return;
    }
    PlainStep(env, Basic(true), out + ['\\'], s[1..]);
    assert s[1..][1..] == rest;
  }

  /** A dollar, with what belongs to it. */
  lemma DollarMeans(env: Env, m: Mode, out: string, p: Part, rest: string)
    requires Expands(m) && (p.Var? || p.Two? || p.TwoBrace? || p.Lone?) && PartOk(env, p, rest)
    requires rest != "" || Bytes(out + PartMeans(env, p)) <= MAX_CONFIG_BYTES
    ensures Scan(env, m, out, PartText(p) + rest) == Scan(env, m, out + PartMeans(env, p), rest)
  {
    hide Scan, Bytes;
    if Bytes(out) > MAX_CONFIG_BYTES {
      Outgrown(env, m, m, out, PartMeans(env, p), PartText(p), rest);
      return;
    }
    match p
    case Var(n) =>
      Substituted(env, m, out, n, rest);
      assert PartText(p) + rest == "${" + n + "}" + rest;
    case Two => DollarSigns(env, m, out, rest);
    case TwoBrace =>
      DollarSigns(env, m, out, "{" + rest);
      assert "$$" + ("{" + rest) == PartText(p) + rest && ("{" + rest)[1..] == rest;
    case Lone => DollarSigns(env, m, out, rest);
    case _ =>
  }

  lemma PartScanned(env: Env, out: string, p: Part, rest: string)
    requires PartOk(env, p, rest) && (rest != "" || Bytes(out + PartMeans(env, p)) <= MAX_CONFIG_BYTES)
    ensures Scan(env, Basic(false), out, PartText(p) + rest) ==
            Scan(env, Basic(false), out + PartMeans(env, p), rest)
  {
    hide Scan, Bytes;
    match p
    case Chars(t) => CharsCopied(env, Basic(false), out, t, rest);
    case Escaped(c) => EscapeCopied(env, out, c, rest);
    case _ => DollarMeans(env, Basic(false), out, p, rest);
  }

  /** A basic string, from after its opening quote: its parts, each with its meaning, up to the
      quote that ends it. */
  lemma {:induction false} PartsScanned(env: Env, out: string, ps: seq<Part>, rest: string)
    requires PartsOk(env, ps) && (rest != "" || Bytes(out + PartsMean(env, ps) + "\"") <= MAX_CONFIG_BYTES)
    ensures Scan(env, Basic(false), out, PartsText(ps) + "\"" + rest) ==
            Scan(env, Code, out + PartsMean(env, ps) + "\"", rest)
    decreases |ps|
  {
    hide Scan, Bytes, PartOk, PartText, PartMeans;
    if ps == [] {
      assert out + "" == out && "" + "\"" + rest == "\"" + rest;
      if Bytes(out) > MAX_CONFIG_BYTES {
        Outgrown(env, Basic(false), Code, out, "\"", "\"", rest);
        return;
      }
      PlainStep(env, Basic(false), out, "\"" + rest);
      assert ("\"" + rest)[1..] == rest;
    } else {
      var p, more, mean := ps[0], PartsText(ps[1..]) + "\"" + rest, PartsMean(env, ps[1..]);
      assert out + (PartMeans(env, p) + mean) + "\"" == (out + PartMeans(env, p)) + (mean + "\"");
      PartOkOn(env, p, PartsText(ps[1..]) + "\"", rest);
      PartScanned(env, out, p, more);
      assert PartsText(ps) + "\"" + rest == PartText(p) + more;
      assert (out + PartMeans(env, p)) + mean + "\"" == (out + PartMeans(env, p)) + (mean + "\"");
      PartsScanned(env, out + PartMeans(env, p), ps[1..], rest);
    }
  }

  lemma PartOkOn(env: Env, p: Part, s: string, rest: string)
    requires s != "" && PartOk(env, p, s)
    ensures PartOk(env, p, s + rest)
  {
  }

  lemma PieceScanned(env: Env, out: string, p: Piece, rest: string)
    requires PieceOk(env, p, rest) && (rest != "" || Bytes(out + PieceMeans(env, p)) <= MAX_CONFIG_BYTES)
    ensures Scan(env, Code, out, PieceText(p) + rest) == Scan(env, Code, out + PieceMeans(env, p), rest)
  {
    hide Scan, Bytes;
    if Bytes(out) > MAX_CONFIG_BYTES && PieceText(p) != "" {
      Outgrown(env, Code, Code, out, PieceMeans(env, p), PieceText(p), rest);
      return;
    }
    match p
    case Plain(t) => CharsCopied(env, Code, out, t, rest);
    case Comment(t) =>
      CommentVerbatim(env, out, t, rest);
      assert out + "#" + t + "\n" == out + ("#" + t + "\n");
    case LiteralString(t) => LiteralCopied(env, out, t, rest);
    case BasicString(ps) => BasicScanned(env, out, ps, rest);
    case Dollars(q) => DollarMeans(env, Code, out, q, rest);
  }

  /** A literal string from its opening quote. */
  lemma LiteralCopied(env: Env, out: string, l: string, rest: string)
    requires '\'' !in l && (rest != "" || Bytes(out + ("'" + l + "'")) <= MAX_CONFIG_BYTES)
    ensures Scan(env, Code, out, "'" + l + "'" + rest) == Scan(env, Code, out + ("'" + l + "'"), rest)
  {
    hide Scan, Bytes;
    var s := "'" + l + "'" + rest;
    assert out + "'" + l + "'" == out + ("'" + l + "'") == (out + "'" + l) + "'" == out + ("'" + l + "'");
    if Bytes(out) > MAX_CONFIG_BYTES {
      Outgrown(env, Code, Code, out, "'" + l + "'", "'" + l + "'", rest);
      return;
    }
    if rest == "" { PrefixFits(out + "'" + l, "'"); }
    PlainStep(env, Code, out, s);
    assert s[1..] == l + "'" + rest;
    LiteralVerbatim(env, out + "'", l, rest);
  }

  lemma BasicScanned(env: Env, out: string, ps: seq<Part>, rest: string)
    requires PartsOk(env, ps) && (rest != "" || Bytes(out + ("\"" + PartsMean(env, ps) + "\"")) <= MAX_CONFIG_BYTES)
    ensures Scan(env, Code, out, "\"" + PartsText(ps) + "\"" + rest) ==
            Scan(env, Code, out + ("\"" + PartsMean(env, ps) + "\""), rest)
  {
    hide Scan, Bytes, PartsText, PartsMean, PartsOk;
    var s, mean := "\"" + PartsText(ps) + "\"" + rest, PartsMean(env, ps);
    assert out + "\"" + mean + "\"" == out + ("\"" + mean + "\"");
    if Bytes(out) > MAX_CONFIG_BYTES {
      Outgrown(env, Code, Code, out, "\"" + mean + "\"", "\"" + PartsText(ps) + "\"", rest);
      return;
    }
    PlainStep(env, Code, out, s);
    assert s[1..] == PartsText(ps) + "\"" + rest;
    PartsScanned(env, out + "\"", ps, rest);
  }

  /** Any text made of such pieces comes out as what they mean, and the scan goes on in code. */
  lemma {:induction false} PiecesScanned(env: Env, out: string, ps: seq<Piece>, rest: string)
    requires PiecesOk(env, ps, rest) && (rest != "" || Bytes(out + Meaning(env, ps)) <= MAX_CONFIG_BYTES)
    ensures Scan(env, Code, out, FileText(ps) + rest) == Scan(env, Code, out + Meaning(env, ps), rest)
    decreases |ps|
  {
    hide Scan, Bytes, PieceOk, PieceText, PieceMeans;
    if ps == [] {
      assert "" + rest == rest && out + "" == out;
    } else {
      var p, more, mean := ps[0], FileText(ps[1..]) + rest, Meaning(env, ps[1..]);
      assert out + (PieceMeans(env, p) + mean) == (out + PieceMeans(env, p)) + mean;
      if rest == "" { PrefixFits(out + PieceMeans(env, p), mean); }
      PieceScanned(env, out, p, more);
      assert FileText(ps) + rest == PieceText(p) + more;
      PiecesScanned(env, out + PieceMeans(env, p), ps[1..], rest);
    }
  }

  /** A whole file of pieces. */
  lemma FileMeans(env: Env, ps: seq<Piece>)
    requires PiecesOk(env, ps, "") && Bytes(Meaning(env, ps)) <= 16777216
    ensures Scan(env, Code, "", FileText(ps)) == Ok(Meaning(env, ps))
  {
    assert "" + Meaning(env, ps) == Meaning(env, ps) && FileText(ps) + "" == FileText(ps);
    PiecesScanned(env, "", ps, "");
  }

  /** A text that has grown over 16 MiB before its end is an error. */
  lemma TooLargeFails(env: Env, ps: seq<Piece>, rest: string)
    requires PiecesOk(env, ps, rest) && rest != "" && Bytes(Meaning(env, ps)) > 16777216
    ensures Scan(env, Code, "", FileText(ps) + rest) == Err(TooLarge)
  {
    hide Bytes, TryExpand, LineLength;
    assert "" + Meaning(env, ps) == Meaning(env, ps);
    PiecesScanned(env, "", ps, rest);
  }

  /** After any pieces, a variable in code that is not set is an error that names it. */
  lemma UnsetFails(env: Env, ps: seq<Piece>, name: string, rest: string)
    requires PiecesOk(env, ps, "${" + name + "}" + rest) && Bytes(Meaning(env, ps)) <= 16777216
    requires '}' !in name && name !in env
    ensures Scan(env, Code, "", FileText(ps) + ("${" + name + "}" + rest)) ==
              Err(if name == "" then EmptyName else NotSet(name))
  {
    assert "" + Meaning(env, ps) == Meaning(env, ps);
    PiecesScanned(env, "", ps, "${" + name + "}" + rest);
    Substituted(env, Code, Meaning(env, ps), name, rest);
  }

  // --- the loops ---------------------------------------------------------------------------------

  /** `expand_env`: the scan, and so of every text made of pieces what they mean. */
  method ExpandEnv(env: Env, text: string) returns (r: Result)
    ensures r == Scan(env, Code, "", text)
    ensures forall ps | text == FileText(ps) && PiecesOk(env, ps, "") && Bytes(Meaning(env, ps)) <= 16777216 ::
              r == Ok(Meaning(env, ps))
    ensures forall ps, rest | text == FileText(ps) + rest && rest != "" && PiecesOk(env, ps, rest)
                              && Bytes(Meaning(env, ps)) > 16777216 :: r == Err(TooLarge)
  {
    hide Step, FileText, PiecesOk, Meaning;
    forall ps, rest | text == FileText(ps) + rest && rest != "" && PiecesOk(env, ps, rest)
                      && Bytes(Meaning(env, ps)) > 16777216
      ensures Scan(env, Code, "", text) == Err(TooLarge)
    {
      TooLargeFails(env, ps, rest);
    }
    forall ps | text == FileText(ps) && PiecesOk(env, ps, "") && Bytes(Meaning(env, ps)) <= 16777216
      ensures Scan(env, Code, "", text) == Ok(Meaning(env, ps))
    {
      FileMeans(env, ps);
    }
    var out, mode, i: nat := "", Code, 0;
    assert text[0..] == text;
    while i < |text|
      invariant i <= |text|
      invariant Scan(env, Code, "", text) == Scan(env, mode, out, text[i..])
    {
      var next := OneRound(env, mode, out, text[i..]);
      if next.Stop? { return Err(next.failure); }
      assert text[i..][next.used..] == text[i + next.used..];
      mode, out, i := next.mode, next.out, i + next.used;
    }
    return Ok(out);
  }

  method OneRound(env: Env, mode: Mode, out: string, rest: string) returns (r: Round)
    requires rest != ""
    ensures r == Step(env, mode, out, rest)
  {
    hide TryExpand, Bytes, LineLength;
    if Bytes(out) > MAX_CONFIG_BYTES { return Stop(TooLarge); }
    if mode == Code && rest[0] == '#' {
      var n := CopyLine(rest[1..]);
      return Go(Code, out + rest[..1 + n], 1 + n);
    }
    if Expands(mode) && rest[0] == '$' {
      var d := AfterDollar(env, rest[1..]);
      return if d.Bad? then Stop(d.failure) else Go(mode, out + d.out, 1 + d.used);
    }
    return Go(Next(mode, rest[0]), out + [rest[0]], 1);
  }

  /** `try_expand`. */
  method AfterDollar(env: Env, s: string) returns (d: Dollar)
    ensures d == TryExpand(env, s)
  {
    if s != "" && s[0] == '$' { return if |s| > 1 && s[1] == '{' then Text("${", 2) else Text("$", 1); }
    if s == "" || s[0] != '{' { return Text("$", 0); }
    var n := ReadName(s[1..]);
    if n.None? { return Bad(Unterminated); }
    var name := s[1..][..n.value];
    if name == "" { return Bad(EmptyName); }
    return if name in env then Text(env[name], n.value + 2) else Bad(NotSet(name));
  }

  method ReadName(s: string) returns (end: Option<nat>)
    ensures end == NameEnd(s)
  {
    var n := 0;
    assert s[0..] == s;
    while n < |s| && s[n] != '}'
      invariant n <= |s|
      invariant NameEnd(s) == if NameEnd(s[n..]).None? then None else Some(n + NameEnd(s[n..]).value)
    {
      assert s[n..][1..] == s[n + 1..];
      n := n + 1;
    }
    return if n == |s| then None else Some(n);
  }

  method CopyLine(s: string) returns (n: nat)
    ensures n == LineLength(s)
  {
    n := 0;
    assert s[0..] == s;
    while n < |s|
      invariant n <= |s| && LineLength(s) == n + LineLength(s[n..])
    {
      assert s[n..][1..] == s[n + 1..];
      n := n + 1;
      if s[n - 1] == '\n' { return; }
    }
  }
}
