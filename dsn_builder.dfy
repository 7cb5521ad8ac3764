/**
 * The DSN builder of src/sentry_dsn_builder.rs: a hostname and a transport
 * security flag, and the rule that composes a DSN from a public key and a
 * project identifier.
 */
module DsnBuilder {
  import opened Results
  import opened Text

  datatype SentryDsnBuilder = SentryDsnBuilder(sentryHostname: string, secure: bool)

  /** The builder `Default` gives: a local upstream on port 9000, plain HTTP. */
  function Default(): SentryDsnBuilder {
    SentryDsnBuilder("localhost:9000", false)
  }

  /** The URL scheme chosen by a security flag. */
  function Scheme(secure: bool): string {
    if secure then "https" else "http"
  }

  /** `build_dsn`: `<scheme>://<public key>@<hostname>/<project id>`, nothing escaped or checked. */
  function BuildDsn(builder: SentryDsnBuilder, publicKey: string, projectId: string): (dsn: string)
    ensures |dsn| == |Scheme(builder.secure)| + |publicKey| + |builder.sentryHostname| + |projectId| + 5
  {
    Scheme(builder.secure) + "://" + publicKey + "@" + builder.sentryHostname + "/" + projectId
  }

  /** The four things a DSN is made of. */
  datatype DsnParts = DsnParts(secure: bool, publicKey: string, hostname: string, projectId: string)

  /**
   * Reads a DSN back: the scheme, then the key up to the first `@`, then the
   * host up to the next `/`, then the project identifier.
   */
  function ParseDsn(dsn: string): Option<DsnParts> {
    if StartsWith(dsn, "https://") then ParseAuthority(true, dsn[8..])
    else if StartsWith(dsn, "http://") then ParseAuthority(false, dsn[7..])
    else None
  }

  function ParseAuthority(secure: bool, rest: string): Option<DsnParts> {
    match SplitAtFirst(rest, '@')
    case None => None
    case Some((publicKey, tail)) =>
      match SplitAtFirst(tail, '/')
      case None => None
      case Some((hostname, projectId)) => Some(DsnParts(secure, publicKey, hostname, projectId))
  }

  /** The text a DSN starts with: the scheme and `://`. */
  function SchemePrefix(secure: bool): string {
    if secure then "https://" else "http://"
  }

  /** What follows the scheme prefix: `<public key>@<hostname>/<project id>`. */
  function AuthorityAndPath(publicKey: string, hostname: string, projectId: string): string {
    publicKey + "@" + hostname + "/" + projectId
  }

  /** A DSN is its scheme prefix followed by the authority and the path. */
  lemma DsnAfterScheme(builder: SentryDsnBuilder, publicKey: string, projectId: string)
    ensures BuildDsn(builder, publicKey, projectId)
         == SchemePrefix(builder.secure) + AuthorityAndPath(publicKey, builder.sentryHostname, projectId)
  {
    assert SchemePrefix(builder.secure) == Scheme(builder.secure) + "://";
  }

  /** The scheme prefix alone decides which scheme a string starts with and where its authority begins. */
  lemma PrefixDecidesScheme(secure: bool, rest: string)
    ensures StartsWith(SchemePrefix(secure) + rest, "https://") <==> secure
    ensures StartsWith(SchemePrefix(secure) + rest, "http://") <==> !secure
    ensures ParseDsn(SchemePrefix(secure) + rest) == ParseAuthority(secure, rest)
  {
    var s := SchemePrefix(secure) + rest;
    if secure {
      assert s[..8] == "https://";
      assert s[8..] == rest;
      assert s[..7][4] == 's';
    } else {
      assert s[..7] == "http://";
      assert s[7..] == rest;
      if |s| >= 8 {
        assert s[..8][4] == ':';
      }
    }
  }

  /** A string that starts with a scheme prefix starts with `https://` exactly when the prefix is secure. */
  lemma SchemeOfPrefixed(secure: bool, s: string)
    requires StartsWith(s, SchemePrefix(secure))
    ensures StartsWith(s, "https://") <==> secure
  {
    if !secure && |s| >= 8 {
      assert s[..8][4] == s[..7][4];
    }
  }

  /** The scheme is `https` exactly when the builder is secure; no other input affects it. */
  lemma SchemeFollowsSecure(builder: SentryDsnBuilder, publicKey: string, projectId: string)
    ensures StartsWith(BuildDsn(builder, publicKey, projectId), "https://") <==> builder.secure
    ensures StartsWith(BuildDsn(builder, publicKey, projectId), "http://") <==> !builder.secure
  {
    DsnAfterScheme(builder, publicKey, projectId);
    PrefixDecidesScheme(builder.secure, AuthorityAndPath(publicKey, builder.sentryHostname, projectId));
  }

  /** The key, the hostname and the project identifier appear verbatim, at fixed places. */
  lemma DsnEmbedsParts(builder: SentryDsnBuilder, publicKey: string, projectId: string)
    ensures var dsn := BuildDsn(builder, publicKey, projectId);
      var prefix := SchemePrefix(builder.secure);
      var afterKey := |prefix| + |publicKey|;
      && StartsWith(dsn, prefix)
      && OccursAt(dsn, publicKey, |prefix|)
      && dsn[afterKey] == '@'
      && OccursAt(dsn, builder.sentryHostname, afterKey + 1)
      && dsn[afterKey + 1 + |builder.sentryHostname|] == '/'
      && EndsWith(dsn, projectId)
  {
    var prefix, host := SchemePrefix(builder.secure), builder.sentryHostname;
    var rest := AuthorityAndPath(publicKey, host, projectId);
    DsnAfterScheme(builder, publicKey, projectId);
    AuthorityEmbedsParts(publicKey, host, projectId);
    PrefixOfConcat(prefix, rest);
    OccursShifted(prefix, rest, publicKey, 0);
    OccursShifted(prefix, rest, host, |publicKey| + 1);
    EndsWithExtended(prefix, rest, projectId);
  }

  /** Where the key, the `@`, the hostname, the `/` and the project identifier sit after the scheme. */
  lemma AuthorityEmbedsParts(publicKey: string, hostname: string, projectId: string)
    ensures var rest := AuthorityAndPath(publicKey, hostname, projectId);
      && OccursAt(rest, publicKey, 0)
      && rest[|publicKey|] == '@'
      && OccursAt(rest, hostname, |publicKey| + 1)
      && rest[|publicKey| + 1 + |hostname|] == '/'
      && EndsWith(rest, projectId)
  {
    var rest := AuthorityAndPath(publicKey, hostname, projectId);
    var head := publicKey + "@" + hostname;
    assert rest == head + "/" + projectId;
    assert head[..|publicKey|] == publicKey;
    assert rest[..|publicKey|] == head[..|publicKey|];
    assert head[|publicKey| + 1..] == hostname;
    assert rest[|publicKey| + 1..|head|] == head[|publicKey| + 1..];
    assert rest[|rest| - |projectId|..] == projectId;
  }

  /** The default builder composes `http://<key>@localhost:9000/<project>`. */
  lemma DefaultDsn(publicKey: string, projectId: string)
    ensures BuildDsn(Default(), publicKey, projectId) == "http://" + publicKey + "@localhost:9000/" + projectId
  {
    assert "http" + "://" == "http://";
    assert "@" + "localhost:9000" + "/" == "@localhost:9000/";
  }

  /** The example of the default builder: key `pub123`, project `proj1`. */
  lemma DefaultDsnExample()
    ensures BuildDsn(Default(), "pub123", "proj1") == "http://pub123@localhost:9000/proj1"
  {
    DefaultDsn("pub123", "proj1");
    assert "http://" + "pub123" + "@localhost:9000/" + "proj1" == "http://pub123@localhost:9000/proj1";
  }

  /**
   * Round trip: a DSN built from a key without `@` and a hostname without `/`
   * reads back as exactly the parts it was built from.
   */
  lemma ParseBuildDsn(builder: SentryDsnBuilder, publicKey: string, projectId: string)
    requires '@' !in publicKey && '/' !in builder.sentryHostname
    ensures ParseDsn(BuildDsn(builder, publicKey, projectId))
         == Some(DsnParts(builder.secure, publicKey, builder.sentryHostname, projectId))
  {
    var rest := AuthorityAndPath(publicKey, builder.sentryHostname, projectId);
    DsnAfterScheme(builder, publicKey, projectId);
    PrefixDecidesScheme(builder.secure, rest);
    AuthorityParses(builder.secure, publicKey, builder.sentryHostname, projectId);
  }

  lemma AuthorityParses(secure: bool, publicKey: string, hostname: string, projectId: string)
    requires '@' !in publicKey && '/' !in hostname
    ensures ParseAuthority(secure, AuthorityAndPath(publicKey, hostname, projectId))
         == Some(DsnParts(secure, publicKey, hostname, projectId))
  {
    var tail := hostname + "/" + projectId;
    assert AuthorityAndPath(publicKey, hostname, projectId) == publicKey + ['@'] + tail;
    SplitAtFirstOf(publicKey, tail, '@');
    assert tail == hostname + ['/'] + projectId;
    SplitAtFirstOf(hostname, projectId, '/');
  }

  /** The other direction: every DSN that reads back is the DSN of the parts it reads as. */
  lemma BuildParsedDsn(dsn: string)
    requires ParseDsn(dsn).Some?
    ensures var parts := ParseDsn(dsn).value;
      && '@' !in parts.publicKey && '/' !in parts.hostname
      && BuildDsn(SentryDsnBuilder(parts.hostname, parts.secure), parts.publicKey, parts.projectId) == dsn
  {
    var secure := StartsWith(dsn, "https://");
    var rest := SplitScheme(dsn);
    AuthorityRoundTrip(secure, rest);
    var parts := ParseAuthority(secure, rest).value;
    DsnAfterScheme(SentryDsnBuilder(parts.hostname, secure), parts.publicKey, parts.projectId);
  }

  /** A DSN that reads back is its scheme prefix followed by the authority it is read from. */
  lemma SplitScheme(dsn: string) returns (rest: string)
    requires ParseDsn(dsn).Some?
    ensures dsn == SchemePrefix(StartsWith(dsn, "https://")) + rest
    ensures ParseDsn(dsn) == ParseAuthority(StartsWith(dsn, "https://"), rest)
  {
    if StartsWith(dsn, "https://") {
      rest := dsn[8..];
      assert dsn == dsn[..8] + rest;
    } else {
      rest := dsn[7..];
      assert dsn == dsn[..7] + rest;
    }
  }

  /** Every authority that reads back is the authority of the parts it reads as. */
  lemma AuthorityRoundTrip(secure: bool, rest: string)
    requires ParseAuthority(secure, rest).Some?
    ensures var parts := ParseAuthority(secure, rest).value;
      && parts.secure == secure && '@' !in parts.publicKey && '/' !in parts.hostname
      && rest == AuthorityAndPath(parts.publicKey, parts.hostname, parts.projectId)
  {
    var (publicKey, tail) := SplitAtFirst(rest, '@').value;
    var (hostname, projectId) := SplitAtFirst(tail, '/').value;
    ConcatRight(publicKey, "@", hostname, "/", projectId);
  }
}
