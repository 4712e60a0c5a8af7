/** The database connection strings of the settings object (`config.py`).
    Loading the five fields from the environment is I/O; the model takes
    them as given. */
module Config {
  import opened Wrappers

  /** The five settings the URLs are built from, as text. */
  datatype Settings = Settings(
    dbHost: string,
    dbPort: string,
    dbName: string,
    dbUser: string,
    dbPassword: string)

  const AsyncpgScheme: string := "postgresql+asyncpg://"
  const PlainScheme: string := "postgresql://"
  const PsycopgScheme: string := "postgresql+psycopg://"

  /** Total length of the five fields. */
  function FieldsLength(s: Settings): nat {
    |s.dbUser| + |s.dbPassword| + |s.dbHost| + |s.dbPort| + |s.dbName|
  }

  /** The text after the scheme, `user:password@host:port/name`, with every
      field inserted as it is (no escaping). */
  function Authority(s: Settings): (r: string)
    ensures |r| == FieldsLength(s) + 4
  {
    s.dbUser + ":" + s.dbPassword + "@" + s.dbHost + ":" + s.dbPort + "/" + s.dbName
  }

  /** `get_db_url`: the URL for the asyncpg driver. */
  function DbUrl(s: Settings): (r: string)
    ensures |r| == |AsyncpgScheme| + FieldsLength(s) + 4
    ensures r[..|AsyncpgScheme|] == AsyncpgScheme && r[|AsyncpgScheme|..] == Authority(s)
  {
    AsyncpgScheme + Authority(s)
  }

  /** `get_db_uri`: the driver-less URL. */
  function DbUri(s: Settings): (r: string)
    ensures |r| == |PlainScheme| + FieldsLength(s) + 4
    ensures r[..|PlainScheme|] == PlainScheme && r[|PlainScheme|..] == Authority(s)
  {
    PlainScheme + Authority(s)
  }

  /** `get_alembic_url`: the URL for the psycopg driver used by migrations. */
  function AlembicUrl(s: Settings): (r: string)
    ensures |r| == |PsycopgScheme| + FieldsLength(s) + 4
    ensures r[..|PsycopgScheme|] == PsycopgScheme && r[|PsycopgScheme|..] == Authority(s)
  {
    PsycopgScheme + Authority(s)
  }

  /** The three URLs agree on everything after the scheme. */
  lemma SameAfterScheme(s: Settings)
    ensures DbUrl(s)[|AsyncpgScheme|..] == DbUri(s)[|PlainScheme|..] == AlembicUrl(s)[|PsycopgScheme|..]
  {
  }

  /** The prefix of `t` before the first `c`, and the rest after it. */
  function SplitAt(t: string, c: char): (r: Option<(string, string)>)
    ensures r.Some? ==> c !in r.value.0 && t == r.value.0 + [c] + r.value.1
    ensures r.None? <==> c !in t
  {
    if t == [] then None
    else if t[0] == c then Some(([], t[1..]))
    else
      match SplitAt(t[1..], c)
      case None => None
      case Some((a, b)) => Some(([t[0]] + a, b))
  }

  /** Reads the five fields back from the text after the scheme. */
  function ParseAuthority(t: string): Option<Settings> {
    match SplitAt(t, ':')
    case None => None
    case Some((user, rest)) =>
      match SplitAt(rest, '@')
      case None => None
      case Some((password, rest')) =>
        match SplitAt(rest', ':')
        case None => None
        case Some((host, rest'')) =>
          match SplitAt(rest'', '/')
          case None => None
          case Some((port, name)) => Some(Settings(host, port, name, user, password))
  }

  /** Reads the settings back from a URL of the given scheme. */
  function ParseUrl(scheme: string, url: string): Option<Settings> {
    if |scheme| <= |url| && url[..|scheme|] == scheme then ParseAuthority(url[|scheme|..]) else None
  }

  /** No field contains the separator that ends it. */
  predicate Unambiguous(s: Settings) {
    ':' !in s.dbUser && '@' !in s.dbPassword && ':' !in s.dbHost && '/' !in s.dbPort
  }

  lemma {:induction false} SplitAtJoin(a: string, c: char, b: string)
    requires c !in a
    ensures SplitAt(a + [c] + b, c) == Some((a, b))
  {
    if a != [] {
      SplitAtJoin(a[1..], c, b);
      assert (a + [c] + b)[1..] == a[1..] + [c] + b;
      assert [a[0]] + a[1..] == a;
    }
  }

  /** When no field contains its separator, the text after the scheme
      determines the settings. */
  lemma AuthorityRoundTrip(s: Settings)
    requires Unambiguous(s)
    ensures ParseAuthority(Authority(s)) == Some(s)
  {
    var tail3 := s.dbName;
    var tail2 := s.dbPort + "/" + tail3;
    var tail1 := s.dbHost + ":" + tail2;
    var tail0 := s.dbPassword + "@" + tail1;
    assert Authority(s) == s.dbUser + [':'] + tail0;
    SplitAtJoin(s.dbUser, ':', tail0);
    assert tail0 == s.dbPassword + ['@'] + tail1;
    SplitAtJoin(s.dbPassword, '@', tail1);
    assert tail1 == s.dbHost + [':'] + tail2;
    SplitAtJoin(s.dbHost, ':', tail2);
    assert tail2 == s.dbPort + ['/'] + tail3;
    SplitAtJoin(s.dbPort, '/', tail3);
  }

  /** Each of the three URLs, read back with its own scheme, gives the
      settings it was built from. */
  lemma UrlsRoundTrip(s: Settings)
    requires Unambiguous(s)
    ensures ParseUrl(AsyncpgScheme, DbUrl(s)) == Some(s)
    ensures ParseUrl(PlainScheme, DbUri(s)) == Some(s)
    ensures ParseUrl(PsycopgScheme, AlembicUrl(s)) == Some(s)
  {
    AuthorityRoundTrip(s);
  }

  /** Without escaping, a user name containing ':' is indistinguishable from
      a password containing it: two different settings, one URL. */
  lemma UnescapedFieldsCollide()
    ensures var s1 := Settings("h", "5432", "db", "a:b", "c");
            var s2 := Settings("h", "5432", "db", "a", "b:c");
            s1 != s2 && DbUrl(s1) == DbUrl(s2)
  {
  }
}
