/**
 * The loader templates of src/template_files.rs: two template bodies held in
 * memory, the JSON configuration that embeds the DSN, and the fixed chain of
 * five literal replace-alls that turns a template into a loader script.
 */
module Templates {
  import opened Results
  import opened Text

  /** The standard and the minified template body, read once at start-up. */
  datatype TemplateFiles = TemplateFiles(jsSdkLoader: string, jsSdkMinLoader: string)

  // ----- The embedded configuration -----

  /** Characters serde_json escapes inside a JSON string. */
  predicate NeedsEscape(c: char) {
    c == '"' || c == '\\' || (c as int) < 0x20
  }

  /** Lower-case hexadecimal digit of `n`. */
  function HexDigit(n: nat): char
    requires n < 16
  {
    if n < 10 then (48 + n) as char else (87 + n) as char
  }

  /** serde_json's escape of one character: short escapes where JSON has them, `\u00xx` for other control characters. */
  function EscapeChar(c: char): string {
    if c == '"' then "\\\""
    else if c == '\\' then "\\\\"
    else if c as int == 8 then "\\b"
    else if c as int == 12 then "\\f"
    else if c == '\n' then "\\n"
    else if c == '\r' then "\\r"
    else if c == '\t' then "\\t"
    else if (c as int) < 0x20 then "\\u00" + [HexDigit(c as int / 16), HexDigit(c as int % 16)]
    else [c]
  }

  function JsonEscape(s: string): string {
    if s == [] then [] else EscapeChar(s[0]) + JsonEscape(s[1..])
  }

  /** A string serialised as a JSON string literal. */
  function JsonString(s: string): string {
    "\"" + JsonEscape(s) + "\""
  }

  /** The three sampling fields after the DSN, in declaration order, and the closing brace. */
  const TRACES_FIELD := ",\"tracesSampleRate\":1"
  const REPLAYS_SESSION_FIELD := ",\"replaysSessionSampleRate\":0.1"
  const REPLAYS_ON_ERROR_FIELD := ",\"replaysOnErrorSampleRate\":1"
  const SAMPLING_FIELDS := TRACES_FIELD + REPLAYS_SESSION_FIELD + REPLAYS_ON_ERROR_FIELD + "}"

  /** The serialised `SentryJavascriptConfig`: the DSN followed by the fixed sampling rates. */
  function ConfigJson(dsn: string): string {
    "{\"dsn\":" + JsonString(dsn) + SAMPLING_FIELDS
  }

  /** Value of a hexadecimal digit, either case. */
  function HexValue(c: char): (r: Option<nat>)
    ensures r.Some? ==> r.value < 16
  {
    if '0' <= c <= '9' then Some(c as int - 48)
    else if 'a' <= c <= 'f' then Some(c as int - 87)
    else if 'A' <= c <= 'F' then Some(c as int - 55)
    else None
  }

  /** The character a two-character escape `\c` stands for. */
  function ShortEscape(c: char): Option<char> {
    if c == '"' then Some('"')
    else if c == '\\' then Some('\\')
    else if c == '/' then Some('/')
    else if c == 'b' then Some(8 as char)
    else if c == 'f' then Some(12 as char)
    else if c == 'n' then Some('\n')
    else if c == 'r' then Some('\r')
    else if c == 't' then Some('\t')
    else None
  }

  function Cons(c: char, r: Option<string>): Option<string> {
    match r
    case None => None
    case Some(t) => Some([c] + t)
  }

  /** Reads the body of a JSON string literal back into the characters it denotes. */
  function JsonUnescape(s: string): Option<string>
    decreases |s|
  {
    if s == [] then Some([])
    else if s[0] != '\\' then
      if NeedsEscape(s[0]) then None else Cons(s[0], JsonUnescape(s[1..]))
    else if |s| < 2 then None
    else if s[1] != 'u' then
      match ShortEscape(s[1])
      case None => None
      case Some(c) => Cons(c, JsonUnescape(s[2..]))
    else if |s| < 6 then None
    else match (HexValue(s[2]), HexValue(s[3]), HexValue(s[4]), HexValue(s[5]))
      case (Some(a), Some(b), Some(c), Some(d)) =>
        var code := ((a * 16 + b) * 16 + c) * 16 + d;
        if 0xD800 <= code < 0xE000 then None
        else Cons(code as char, JsonUnescape(s[6..]))
      case _ => None
  }

  lemma HexDigitValue(n: nat)
    requires n < 16
    ensures HexValue(HexDigit(n)) == Some(n)
  {
  }

  /** Reading back one escaped character gives that character. */
  lemma UnescapeEscapeChar(c: char, rest: string)
    ensures JsonUnescape(EscapeChar(c) + rest) == Cons(c, JsonUnescape(rest))
  {
    var s := EscapeChar(c) + rest;
    if c == '"' || c == '\\' || c as int == 8 || c as int == 12 || c == '\n' || c == '\r' || c == '\t' {
      assert s[2..] == rest;
    } else if (c as int) < 0x20 {
      var hi, lo := c as int / 16, c as int % 16;
      assert s == ['\\', 'u', '0', '0', HexDigit(hi), HexDigit(lo)] + rest;
      assert s[6..] == rest;
      HexDigitValue(hi);
      HexDigitValue(lo);
      assert ((0 * 16 + 0) * 16 + hi) * 16 + lo == c as int;
    } else {
      assert s == [c] + rest;
      assert s[1..] == rest;
    }
  }

  /** Round trip: the escaped form of a string reads back as that string. */
  lemma {:induction false} UnescapeJsonEscape(s: string)
    ensures JsonUnescape(JsonEscape(s)) == Some(s)
  {
    if s != [] {
      UnescapeJsonEscape(s[1..]);
      UnescapeEscapeChar(s[0], JsonEscape(s[1..]));
      assert [s[0]] + s[1..] == s;
    }
  }

  /** A string with nothing to escape is serialised as itself. */
  lemma {:induction false} JsonEscapePlain(s: string)
    requires forall i :: 0 <= i < |s| ==> !NeedsEscape(s[i])
    ensures JsonEscape(s) == s
  {
    if s != [] {
      JsonEscapePlain(s[1..]);
      assert [s[0]] + s[1..] == s;
    }
  }

  /** Escaping never introduces a `{`. */
  lemma {:induction false} JsonEscapeNoBrace(s: string)
    requires '{' !in s
    ensures '{' !in JsonEscape(s)
  {
    if s != [] {
      JsonEscapeNoBrace(s[1..]);
      assert s[0] != '{';
    }
  }

  /** What comes before and after the escaped DSN in the configuration. */
  const CONFIG_HEAD := "{\"dsn\":\""
  const CONFIG_TAIL := "\"" + SAMPLING_FIELDS

  /** The configuration is the escaped DSN between a fixed head and a fixed tail. */
  lemma ConfigJsonSplit(dsn: string)
    ensures ConfigJson(dsn) == CONFIG_HEAD + JsonEscape(dsn) + CONFIG_TAIL
  {
    assert "{\"dsn\":" + "\"" == CONFIG_HEAD;
    Regroup("{\"dsn\":", "\"", JsonEscape(dsn), "\"", SAMPLING_FIELDS);
  }

  /** Moving the brackets of a five-part concatenation. */
  lemma Regroup(a: string, b: string, c: string, d: string, f: string)
    ensures a + (b + c + d) + f == (a + b) + c + (d + f)
  {
  }

  /**
   * The configuration is `{"dsn":"` and the fixed sampling rates around the
   * escaped DSN, whatever the DSN; the quoted part reads back as the DSN.
   */
  lemma ConfigJsonShape(dsn: string)
    ensures var json := ConfigJson(dsn);
      && StartsWith(json, CONFIG_HEAD)
      && EndsWith(json, CONFIG_TAIL)
      && JsonUnescape(json[|CONFIG_HEAD|..|json| - |CONFIG_TAIL|]) == Some(dsn)
  {
    ConfigJsonSplit(dsn);
    Framed(CONFIG_HEAD, JsonEscape(dsn), CONFIG_TAIL);
    UnescapeJsonEscape(dsn);
  }

  /** A DSN with nothing to escape stands verbatim in the configuration. */
  lemma ConfigJsonPlain(dsn: string)
    requires forall i :: 0 <= i < |dsn| ==> !NeedsEscape(dsn[i])
    ensures ConfigJson(dsn) == CONFIG_HEAD + dsn + CONFIG_TAIL
    ensures OccursAt(ConfigJson(dsn), dsn, |CONFIG_HEAD|)
  {
    JsonEscapePlain(dsn);
    ConfigJsonSplit(dsn);
    Framed(CONFIG_HEAD, dsn, CONFIG_TAIL);
  }

  // ----- The replacement chain -----

  /** The five strings the renderer replaces. */
  datatype Placeholder = PublicKey | JsSdkUrl | Config | IsLazy | LoadDirective

  /**
   * The placeholders are `{{ publicKey|safe }}`, `{{ jsSdkUrl|safe }}`,
   * `{{ config|to_json|safe }}`, `{{ isLazy|safe|lower }}` and
   * `{% load sentry_helpers %}`: a `{`, a delimiter, and a body.
   */
  function Token(p: Placeholder): string {
    ['{', Delimiter(p)] + TokenBody(p)
  }

  /** `%` for the template tag, `{` for the four expressions. */
  function Delimiter(p: Placeholder): char {
    if p == LoadDirective then '%' else '{'
  }

  function TokenBody(p: Placeholder): string {
    match p
    case PublicKey => " publicKey|safe }}"
    case JsSdkUrl => " jsSdkUrl|safe }}"
    case Config => " config|to_json|safe }}"
    case IsLazy => " isLazy|safe|lower }}"
    case LoadDirective => " load sentry_helpers %}"
  }

  /** Position of each replacement in the chain. */
  function Rank(p: Placeholder): nat {
    match p
    case PublicKey => 0
    case JsSdkUrl => 1
    case Config => 2
    case IsLazy => 3
    case LoadDirective => 4
  }

  const CHAIN_LENGTH := 5

  /** The per-request values: the public key, the SDK bundle URL and the configuration JSON. */
  datatype Inserted = Inserted(publicKey: string, jsSdkUrl: string, config: string)

  /** What each placeholder becomes; lazy loading is always off, the load directive is deleted. */
  function ValueOf(p: Placeholder, v: Inserted): string {
    match p
    case PublicKey => v.publicKey
    case JsSdkUrl => v.jsSdkUrl
    case Config => v.config
    case IsLazy => "false"
    case LoadDirective => ""
  }

  function Substitute(s: string, p: Placeholder, v: Inserted): string {
    ReplaceAll(s, Token(p), ValueOf(p, v))
  }

  /** The chain shared by `build` and `build_minified`, applied to one template body. */
  function Render(template: string, publicKey: string, jsSdkUrl: string, dsn: string): string {
    var v := Inserted(publicKey, jsSdkUrl, ConfigJson(dsn));
    var s1 := Substitute(template, PublicKey, v);
    var s2 := Substitute(s1, JsSdkUrl, v);
    var s3 := Substitute(s2, Config, v);
    var s4 := Substitute(s3, IsLazy, v);
    Substitute(s4, LoadDirective, v)
  }

  /** `build`: the chain on the standard template. */
  function Build(files: TemplateFiles, publicKey: string, jsSdkUrl: string, dsn: string): string {
    Render(files.jsSdkLoader, publicKey, jsSdkUrl, dsn)
  }

  /** `build_minified`: the same chain on the minified template. */
  function BuildMinified(files: TemplateFiles, publicKey: string, jsSdkUrl: string, dsn: string): string {
    Render(files.jsSdkMinLoader, publicKey, jsSdkUrl, dsn)
  }

  /** `build_minified` is `build` on a template pair whose standard body is the minified one. */
  lemma MinifiedIsBuildOfMinBody(files: TemplateFiles, publicKey: string, jsSdkUrl: string, dsn: string)
    ensures BuildMinified(files, publicKey, jsSdkUrl, dsn)
         == Build(TemplateFiles(files.jsSdkMinLoader, files.jsSdkLoader), publicKey, jsSdkUrl, dsn)
    ensures files.jsSdkLoader == files.jsSdkMinLoader
        ==> BuildMinified(files, publicKey, jsSdkUrl, dsn) == Build(files, publicKey, jsSdkUrl, dsn)
  {
  }

  /** A template holding none of the five placeholders comes back unchanged. */
  lemma RenderWithoutPlaceholders(template: string, publicKey: string, jsSdkUrl: string, dsn: string)
    requires forall p: Placeholder :: !Contains(template, Token(p))
    ensures Render(template, publicKey, jsSdkUrl, dsn) == template
  {
    var v := Inserted(publicKey, jsSdkUrl, ConfigJson(dsn));
    ReplaceAllNoMatch(template, Token(PublicKey), v.publicKey);
    ReplaceAllNoMatch(template, Token(JsSdkUrl), v.jsSdkUrl);
    ReplaceAllNoMatch(template, Token(Config), v.config);
    ReplaceAllNoMatch(template, Token(IsLazy), "false");
    ReplaceAllNoMatch(template, Token(LoadDirective), "");
  }

  // ----- Templates made of literal text and placeholder slots -----

  /**
   * No placeholder can begin inside `s`, whatever follows it: every `{` in `s`
   * is followed, within `s`, by a character other than `{` and `%`.
   */
  predicate Inert(s: string) {
    forall i :: 0 <= i < |s| && s[i] == '{' ==> i + 1 < |s| && s[i + 1] != '{' && s[i + 1] != '%'
  }

  lemma NoBraceInert(s: string)
    requires '{' !in s
    ensures Inert(s)
  {
  }

  lemma InertConcat(a: string, b: string)
    requires Inert(a) && Inert(b)
    ensures Inert(a + b)
  {
    forall i | 0 <= i < |a + b| && (a + b)[i] == '{'
      ensures i + 1 < |a + b| && (a + b)[i + 1] != '{' && (a + b)[i + 1] != '%'
    {
      if i < |a| {
        assert a[i] == '{';
      } else {
        assert b[i - |a|] == '{';
      }
    }
  }

  /** The character at index 3 of each placeholder, where the four `{{` placeholders differ. */
  function Tag(p: Placeholder): char {
    match p
    case PublicKey => 'p'
    case JsSdkUrl => 'j'
    case Config => 'c'
    case IsLazy => 'i'
    case LoadDirective => 'l'
  }

  lemma InertAfterBrace(rest: string)
    requires rest != [] && rest[0] != '{' && rest[0] != '%' && '{' !in rest
    ensures Inert("{" + rest)
  {
    var s := "{" + rest;
    forall i | 0 <= i < |s|
      ensures s[i] == '{' ==> i + 1 < |s| && s[i + 1] != '{' && s[i + 1] != '%'
    {
      if i > 0 {
        assert s[i] == rest[i - 1];
      }
    }
  }

  /** A body that starts with a space, carries `tag` at index 1 and holds no `{`. */
  predicate BodyShape(body: string, tag: char) {
    |body| >= 2 && body[0] == ' ' && body[1] == tag && '{' !in body
  }

  lemma TokenBodyPlain(p: Placeholder)
    ensures BodyShape(TokenBody(p), Tag(p))
  {
    match p
    case PublicKey => PublicKeyBody();
    case JsSdkUrl => JsSdkUrlBody();
    case Config => ConfigBody();
    case IsLazy => IsLazyBody();
    case LoadDirective => LoadDirectiveBody();
  }

  lemma PublicKeyBody()
    ensures BodyShape(" publicKey|safe }}", 'p')
  {
  }

  lemma JsSdkUrlBody()
    ensures BodyShape(" jsSdkUrl|safe }}", 'j')
  {
  }

  lemma ConfigBody()
    ensures BodyShape(" config|to_json|safe }}", 'c')
  {
  }

  lemma IsLazyBody()
    ensures BodyShape(" isLazy|safe|lower }}", 'i')
  {
  }

  lemma LoadDirectiveBody()
    ensures BodyShape(" load sentry_helpers %}", 'l')
  {
  }

  lemma TokenOpens(p: Placeholder)
    ensures |Token(p)| >= 4 && Token(p)[0] == '{' && Token(p)[3] == Tag(p)
    ensures Token(p)[1] == if p == LoadDirective then '%' else '{'
    ensures Inert(Token(p)[1..])
  {
    TokenBodyPlain(p);
    OpensWith(Delimiter(p), TokenBody(p));
  }

  /** A `{`, a delimiter and a body that starts with a space and holds no `{`. */
  lemma OpensWith(delimiter: char, body: string)
    requires delimiter == '{' || delimiter == '%'
    requires |body| >= 2 && body[0] == ' ' && '{' !in body
    ensures var t := ['{', delimiter] + body;
      && |t| >= 4 && t[0] == '{' && t[1] == delimiter && t[3] == body[1]
      && Inert(t[1..])
  {
    var t := ['{', delimiter] + body;
    assert t[1..] == [delimiter] + body;
    if delimiter == '%' {
      NoBraceInert([delimiter] + body);
    } else {
      InertAfterBrace(body);
    }
  }

  /** Two different placeholders differ at index 1 or at index 3. */
  lemma TokensDiffer(p: Placeholder, q: Placeholder)
    requires p != q
    ensures Token(p)[1] != Token(q)[1] || Token(p)[3] != Token(q)[3]
  {
    TokenOpens(p);
    TokenOpens(q);
  }

  /** A pattern that starts like every placeholder: `{{` or `{%`. */
  predicate Opens(t: string) {
    |t| >= 2 && t[0] == '{' && (t[1] == '{' || t[1] == '%')
  }

  /** An inert prefix is copied unchanged by the replacement of such a pattern. */
  lemma InertSkip(x: string, y: string, t: string, rep: string)
    requires Inert(x) && Opens(t)
    ensures ReplaceAll(x + y, t, rep) == x + ReplaceAll(y, t, rep)
  {
    forall i: nat | i < |x|
      ensures !OccursAt(x + y, t, i)
    {
      if i + |t| <= |x + y| {
        assert (x + y)[i..i + |t|][0] == (x + y)[i] == x[i];
        assert (x + y)[i..i + |t|][1] == (x + y)[i + 1];
        if x[i] == '{' {
          assert (x + y)[i + 1] == x[i + 1];
        }
      }
    }
    ReplaceAllSkip(x, y, t, rep);
  }

  /** A string that does not match at its start and is inert after its first character is copied unchanged. */
  lemma MismatchSkip(u: string, y: string, t: string, rep: string)
    requires u != [] && Opens(t) && !OccursAt(u + y, t, 0) && Inert(u[1..])
    ensures ReplaceAll(u + y, t, rep) == u + ReplaceAll(y, t, rep)
  {
    var s := u + y;
    var tail := u[1..];
    var r := ReplaceAll(y, t, rep);
    assert s[0] == u[0] && s[1..] == tail + y;
    calc {
      ReplaceAll(s, t, rep);
      { ReplaceAllStep(s, t, rep); }
      [u[0]] + ReplaceAll(tail + y, t, rep);
      { InertSkip(tail, y, t, rep); }
      [u[0]] + (tail + r);
      { ConsAppend(u, r); }
      u + r;
    }
  }

  lemma TokenNotAtStart(q: Placeholder, p: Placeholder, y: string)
    requires q != p
    ensures !OccursAt(Token(q) + y, Token(p), 0)
  {
    var t, u := Token(p), Token(q);
    TokensDiffer(p, q);
    TokenOpens(q);
    if |t| <= |u + y| {
      var w := (u + y)[0..|t|];
      assert w[1] == u[1] && w[3] == u[3];
    }
  }

  /** Another placeholder is copied unchanged by a placeholder replacement. */
  lemma TokenSkip(q: Placeholder, p: Placeholder, y: string, rep: string)
    requires q != p
    ensures ReplaceAll(Token(q) + y, Token(p), rep) == Token(q) + ReplaceAll(y, Token(p), rep)
  {
    TokenNotAtStart(q, p, y);
    TokenOpens(p);
    TokenOpens(q);
    MismatchSkip(Token(q), y, Token(p), rep);
  }

  datatype Piece = Lit(text: string) | Slot(placeholder: Placeholder)

  /** The template text a sequence of pieces stands for. */
  function Layout(pieces: seq<Piece>): string {
    if pieces == [] then []
    else
      (match pieces[0] case Lit(t) => t case Slot(p) => Token(p)) + Layout(pieces[1..])
  }

  /** The pieces with the slots of the first `n` replacements filled in and the others left as placeholders. */
  function Fill(pieces: seq<Piece>, n: nat, v: Inserted): string {
    if pieces == [] then []
    else PieceText(pieces[0], n, v) + Fill(pieces[1..], n, v)
  }

  function PieceText(piece: Piece, n: nat, v: Inserted): string {
    match piece
    case Lit(t) => t
    case Slot(p) => if Rank(p) < n then ValueOf(p, v) else Token(p)
  }

  ghost predicate LitsInert(pieces: seq<Piece>) {
    forall i :: 0 <= i < |pieces| && pieces[i].Lit? ==> Inert(pieces[i].text)
  }

  lemma {:induction false} FillNothing(pieces: seq<Piece>, v: Inserted)
    ensures Fill(pieces, 0, v) == Layout(pieces)
  {
    if pieces != [] {
      FillNothing(pieces[1..], v);
    }
  }

  /** One link of the chain fills exactly the slots of its own placeholder. */
  lemma {:induction false} SubstituteStep(pieces: seq<Piece>, p: Placeholder, v: Inserted)
    requires LitsInert(pieces)
    requires forall q: Placeholder :: Rank(q) < Rank(p) ==> Inert(ValueOf(q, v))
    ensures Substitute(Fill(pieces, Rank(p), v), p, v) == Fill(pieces, Rank(p) + 1, v)
  {
    if pieces != [] {
      var n, rest := Rank(p), pieces[1..];
      assert LitsInert(rest) by {
        forall i | 0 <= i < |rest| && rest[i].Lit?
          ensures Inert(rest[i].text)
        {
          assert rest[i] == pieces[i + 1];
        }
      }
      SubstituteStep(rest, p, v);
      var tail := Fill(rest, n, v);
      var rep := ValueOf(p, v);
      match pieces[0]
      case Lit(t) =>
        assert pieces[0] == pieces[0];
        TokenOpens(p);
        InertSkip(t, tail, Token(p), rep);
      case Slot(q) =>
        if q == p {
          ReplaceAllHead(Token(p), tail, rep);
        } else if Rank(q) < n {
          TokenOpens(p);
          InertSkip(ValueOf(q, v), tail, Token(p), rep);
        } else {
          TokenSkip(q, p, tail, rep);
        }
    }
  }

  /** Every slot filled: `Fill` with the whole chain applied. */
  function Filled(pieces: seq<Piece>, v: Inserted): string {
    Fill(pieces, CHAIN_LENGTH, v)
  }

  /** The five links in order, on a template made of inert text and slots, with inert values. */
  lemma ChainFills(pieces: seq<Piece>, v: Inserted)
    requires LitsInert(pieces)
    requires forall q: Placeholder :: Inert(ValueOf(q, v))
    ensures Substitute(Substitute(Substitute(Substitute(Substitute(
              Layout(pieces), PublicKey, v), JsSdkUrl, v), Config, v), IsLazy, v), LoadDirective, v)
         == Fill(pieces, 5, v)
  {
    FillNothing(pieces, v);
    var s1 := Substitute(Layout(pieces), PublicKey, v);
    assert s1 == Fill(pieces, 1, v) by { SubstituteStep(pieces, PublicKey, v); }
    var s2 := Substitute(s1, JsSdkUrl, v);
    assert s2 == Fill(pieces, 2, v) by { SubstituteStep(pieces, JsSdkUrl, v); }
    var s3 := Substitute(s2, Config, v);
    assert s3 == Fill(pieces, 3, v) by { SubstituteStep(pieces, Config, v); }
    var s4 := Substitute(s3, IsLazy, v);
    assert s4 == Fill(pieces, 4, v) by { SubstituteStep(pieces, IsLazy, v); }
    SubstituteStep(pieces, LoadDirective, v);
  }

  /**
   * For a template made of inert text and placeholder slots, rendering with
   * inert values fills every slot with its value and changes nothing else.
   */
  lemma RenderFillsSlots(pieces: seq<Piece>, publicKey: string, jsSdkUrl: string, dsn: string)
    requires LitsInert(pieces) && Inert(publicKey) && Inert(jsSdkUrl) && Inert(ConfigJson(dsn))
    ensures Render(Layout(pieces), publicKey, jsSdkUrl, dsn)
         == Filled(pieces, Inserted(publicKey, jsSdkUrl, ConfigJson(dsn)))
  {
    var v := Inserted(publicKey, jsSdkUrl, ConfigJson(dsn));
    NoBraceInert("false");
    NoBraceInert("");
    assert forall q: Placeholder :: Inert(ValueOf(q, v));
    ChainFills(pieces, v);
  }

  /** The configuration of a DSN without `{` is inert: its only `{` is followed by a quote. */
  lemma ConfigJsonInert(dsn: string)
    requires '{' !in dsn
    ensures Inert(ConfigJson(dsn))
  {
    ConfigJsonSplit(dsn);
    ConfigHeadInert();
    JsonEscapeNoBrace(dsn);
    NoBraceInert(JsonEscape(dsn));
    ConfigTailNoBrace();
    NoBraceInert(CONFIG_TAIL);
    InertConcat(CONFIG_HEAD, JsonEscape(dsn));
    InertConcat(CONFIG_HEAD + JsonEscape(dsn), CONFIG_TAIL);
  }

  /** The head's only brace is followed by a quote. */
  lemma ConfigHeadInert()
    ensures Inert(CONFIG_HEAD)
  {
    assert CONFIG_HEAD == "{" + "\"dsn\":\"";
    InertAfterBrace("\"dsn\":\"");
  }

  /** Nothing after the DSN opens a brace. */
  lemma ConfigTailNoBrace()
    ensures '{' !in CONFIG_TAIL
  {
    TracesFieldNoBrace();
    ReplaysSessionFieldNoBrace();
    ReplaysOnErrorFieldNoBrace();
  }

  lemma TracesFieldNoBrace()
    ensures '{' !in TRACES_FIELD
  {
  }

  lemma ReplaysSessionFieldNoBrace()
    ensures '{' !in REPLAYS_SESSION_FIELD
  {
  }

  lemma ReplaysOnErrorFieldNoBrace()
    ensures '{' !in REPLAYS_ON_ERROR_FIELD
  {
  }

  /** No placeholder occurs in an inert string. */
  lemma InertHasNoPlaceholder(s: string, p: Placeholder)
    requires Inert(s)
    ensures !Contains(s, Token(p))
  {
    var t := Token(p);
    TokenOpens(p);
    forall i: nat | i <= |s|
      ensures !OccursAt(s, t, i)
    {
      if i + |t| <= |s| {
        assert s[i..i + |t|][0] == s[i];
        assert s[i..i + |t|][1] == s[i + 1];
      }
    }
  }

  /** Filling every slot of inert text with inert values gives an inert string. */
  lemma {:induction false} FilledInert(pieces: seq<Piece>, v: Inserted)
    requires LitsInert(pieces)
    requires forall q: Placeholder :: Inert(ValueOf(q, v))
    ensures Inert(Filled(pieces, v))
  {
    if pieces != [] {
      var rest := pieces[1..];
      assert LitsInert(rest) by {
        forall i | 0 <= i < |rest| && rest[i].Lit?
          ensures Inert(rest[i].text)
        {
          assert rest[i] == pieces[i + 1];
        }
      }
      FilledInert(rest, v);
      InertConcat(PieceText(pieces[0], CHAIN_LENGTH, v), Filled(rest, v));
    }
  }

  /**
   * Under the conditions of `RenderFillsSlots`, no placeholder is left in the
   * rendered script: the lazy flag and the load directive in particular are gone.
   */
  lemma RenderLeavesNoPlaceholder(pieces: seq<Piece>, publicKey: string, jsSdkUrl: string, dsn: string, p: Placeholder)
    requires LitsInert(pieces) && Inert(publicKey) && Inert(jsSdkUrl) && Inert(ConfigJson(dsn))
    ensures !Contains(Render(Layout(pieces), publicKey, jsSdkUrl, dsn), Token(p))
  {
    var v := Inserted(publicKey, jsSdkUrl, ConfigJson(dsn));
    RenderFillsSlots(pieces, publicKey, jsSdkUrl, dsn);
    NoBraceInert("false");
    NoBraceInert("");
    FilledInert(pieces, v);
    InertHasNoPlaceholder(Filled(pieces, v), p);
  }

  /** The value of every slot appears in the filled template, at a position the lemma returns. */
  lemma {:induction false} FilledShowsValue(pieces: seq<Piece>, k: nat, v: Inserted) returns (at: nat)
    requires k < |pieces| && pieces[k].Slot?
    ensures OccursAt(Filled(pieces, v), ValueOf(pieces[k].placeholder, v), at)
  {
    var value := ValueOf(pieces[k].placeholder, v);
    var head := PieceText(pieces[0], CHAIN_LENGTH, v);
    var tail := Filled(pieces[1..], v);
    assert Filled(pieces, v) == head + tail;
    if k == 0 {
      at := 0;
      assert (head + tail)[0..|value|] == value;
    } else {
      var inner := FilledShowsValue(pieces[1..], k - 1, v);
      at := |head| + inner;
      assert (head + tail)[at..at + |value|] == tail[inner..inner + |value|];
    }
  }

  /**
   * On a template of inert text and placeholders with a config slot, a DSN
   * that needs no escaping and opens no placeholder appears verbatim in the
   * rendered loader, at the position the lemma returns.
   */
  lemma RenderShowsDsn(pieces: seq<Piece>, k: nat, publicKey: string, jsSdkUrl: string, dsn: string) returns (at: nat)
    requires LitsInert(pieces) && k < |pieces| && pieces[k] == Slot(Config)
    requires '{' !in publicKey && '{' !in jsSdkUrl && '{' !in dsn
    requires forall i :: 0 <= i < |dsn| ==> !NeedsEscape(dsn[i])
    ensures OccursAt(Render(Layout(pieces), publicKey, jsSdkUrl, dsn), dsn, at)
  {
    RenderWithoutBraces(pieces, publicKey, jsSdkUrl, dsn);
    var v := Inserted(publicKey, jsSdkUrl, ConfigJson(dsn));
    assert OccursAt(v.config, dsn, |CONFIG_HEAD|) by {
      ConfigJsonPlain(dsn);
    }
    at := FilledShowsWithinValue(pieces, k, v, dsn, |CONFIG_HEAD|);
  }

  /** Values without `{` are inserted as they are. */
  lemma RenderWithoutBraces(pieces: seq<Piece>, publicKey: string, jsSdkUrl: string, dsn: string)
    requires LitsInert(pieces) && '{' !in publicKey && '{' !in jsSdkUrl && '{' !in dsn
    ensures Render(Layout(pieces), publicKey, jsSdkUrl, dsn)
         == Filled(pieces, Inserted(publicKey, jsSdkUrl, ConfigJson(dsn)))
  {
    NoBraceInert(publicKey);
    NoBraceInert(jsSdkUrl);
    ConfigJsonInert(dsn);
    RenderFillsSlots(pieces, publicKey, jsSdkUrl, dsn);
  }

  /** Whatever occurs in the value of a slot occurs in the filled template. */
  lemma FilledShowsWithinValue(pieces: seq<Piece>, k: nat, v: Inserted, inner: string, offset: nat) returns (at: nat)
    requires k < |pieces| && pieces[k].Slot? && OccursAt(ValueOf(pieces[k].placeholder, v), inner, offset)
    ensures OccursAt(Filled(pieces, v), inner, at)
  {
    var start := FilledShowsValue(pieces, k, v);
    OccursWithin(Filled(pieces, v), ValueOf(pieces[k].placeholder, v), inner, start, offset);
    at := start + offset;
  }


}
