/**
 * The database settings (`Config`): five values read from the process
 * environment when the class is defined, each with a default, and the two
 * strings formatted from them.
 */
module Config {
  import opened Relational

  /** The process environment after `load_dotenv`: variable name to value. */
  type Environment = map<string, string>

  datatype Settings = Settings(host: string, port: string, name: string, user: string, password: string)

  /** `os.getenv(key, default)`: the value when the variable is set (even to the empty string), else the default. */
  function GetEnv(env: Environment, key: string, default: string): (v: string)
    ensures key in env ==> v == env[key]
    ensures key !in env ==> v == default
  {
    if key in env then env[key] else default
  }

  /** The class attributes `DB_HOST` ... `DB_PASSWORD`. */
  function FromEnvironment(env: Environment): (c: Settings)
    ensures c.host == if "DB_HOST" in env then env["DB_HOST"] else "localhost"
    ensures c.port == if "DB_PORT" in env then env["DB_PORT"] else "5432"
    ensures c.name == if "DB_NAME" in env then env["DB_NAME"] else "ecommerce_dw"
    ensures c.user == if "DB_USER" in env then env["DB_USER"] else "dataeng"
    ensures c.password == if "DB_PASSWORD" in env then env["DB_PASSWORD"] else "dataeng123"
  {
    Settings(GetEnv(env, "DB_HOST", "localhost"),
             GetEnv(env, "DB_PORT", "5432"),
             GetEnv(env, "DB_NAME", "ecommerce_dw"),
             GetEnv(env, "DB_USER", "dataeng"),
             GetEnv(env, "DB_PASSWORD", "dataeng123"))
  }

  const Scheme: string := "postgresql://"

  /** `database_url`. */
  function DatabaseUrl(c: Settings): (url: string)
    ensures |url| >= |Scheme| && url[..|Scheme|] == Scheme
  {
    Scheme + c.user + ":" + c.password + "@" + c.host + ":" + c.port + "/" + c.name
  }

  /** `__repr__`. */
  function Repr(c: Settings): (r: string)
    ensures |r| > 12 && r[..11] == "<Config DB=" && r[|r| - 1] == '>'
  {
    "<Config DB=" + c.name + "@" + c.host + ":" + c.port + ">"
  }

  // ---------------------------------------------------------------------------
  // reading a URL back
  // ---------------------------------------------------------------------------

  /** Splits `s` at the first occurrence of `sep`. */
  function SplitAt(s: string, sep: char): (r: Option<(string, string)>)
    ensures r.Some? ==> s == r.value.0 + [sep] + r.value.1 && sep !in r.value.0
    ensures r.None? ==> sep !in s
  {
    if s == [] then None
    else if s[0] == sep then Some(([], s[1..]))
    else
      match SplitAt(s[1..], sep)
      case None => None
      case Some((a, b)) => Some(([s[0]] + a, b))
  }

  lemma {:induction false} SplitAtJoin(a: string, sep: char, b: string)
    requires sep !in a
    ensures SplitAt(a + [sep] + b, sep) == Some((a, b))
  {
    if a != [] {
      assert (a + [sep] + b)[1..] == a[1..] + [sep] + b;
      SplitAtJoin(a[1..], sep, b);
      assert [a[0]] + a[1..] == a;
    } else {
      assert a + [sep] + b == [sep] + b;
    }
  }

  /** Reads user, password, host, port and database name back out of a connection URL. */
  function ParseDatabaseUrl(url: string): Option<Settings> {
    if |url| < |Scheme| || url[..|Scheme|] != Scheme then None
    else
      match SplitAt(url[|Scheme|..], ':')
      case None => None
      case Some((user, r1)) =>
        match SplitAt(r1, '@')
        case None => None
        case Some((password, r2)) =>
          match SplitAt(r2, ':')
          case None => None
          case Some((host, r3)) =>
            match SplitAt(r3, '/')
            case None => None
            case Some((port, name)) => Some(Settings(host, port, name, user, password))
  }

  /** The settings whose URL can be read back unambiguously. */
  predicate Unambiguous(c: Settings) {
    ':' !in c.user && '@' !in c.password && ':' !in c.host && '/' !in c.port
  }

  /** The URL carries every setting: reading it back gives the settings. */
  lemma DatabaseUrlRoundTrip(c: Settings)
    requires Unambiguous(c)
    ensures ParseDatabaseUrl(DatabaseUrl(c)) == Some(c)
  {
    var url := DatabaseUrl(c);
    var r3 := c.port + "/" + c.name;
    var r2 := c.host + ":" + r3;
    var r1 := c.password + "@" + r2;
    assert url == Scheme + (c.user + ":" + r1);
    assert url[|Scheme|..] == c.user + [':'] + r1;
    SplitAtJoin(c.user, ':', r1);
    SplitAtJoin(c.password, '@', r2);
    SplitAtJoin(c.host, ':', r3);
    SplitAtJoin(c.port, '/', c.name);
  }

  /** Settings that differ give different URLs. */
  lemma DatabaseUrlInjective(c: Settings, d: Settings)
    requires Unambiguous(c) && Unambiguous(d)
    requires DatabaseUrl(c) == DatabaseUrl(d)
    ensures c == d
  {
    DatabaseUrlRoundTrip(c);
    DatabaseUrlRoundTrip(d);
  }

  /** Reads database name, host and port back out of the `__repr__` text. */
  function ParseRepr(r: string): Option<(string, string, string)> {
    if |r| < 12 || r[..11] != "<Config DB=" || r[|r| - 1] != '>' then None
    else
      match SplitAt(r[11..|r| - 1], '@')
      case None => None
      case Some((name, rest)) =>
        match SplitAt(rest, ':')
        case None => None
        case Some((host, port)) => Some((name, host, port))
  }

  /**
   * The text carries the database name, host and port: reading it back gives
   * them, provided the name has no '@' and the host no ':'.
   */
  lemma ReprRoundTrip(c: Settings)
    requires '@' !in c.name && ':' !in c.host
    ensures ParseRepr(Repr(c)) == Some((c.name, c.host, c.port))
  {
    var r := Repr(c);
    var rest := c.host + ":" + c.port;
    assert r == "<Config DB=" + (c.name + "@" + rest) + ">";
    assert r[11..|r| - 1] == c.name + ['@'] + rest;
    SplitAtJoin(c.name, '@', rest);
    SplitAtJoin(c.host, ':', c.port);
  }

  /** With no variable set, the settings are those of the development database. */
  lemma DefaultSettings()
    ensures FromEnvironment(map[]) == Settings("localhost", "5432", "ecommerce_dw", "dataeng", "dataeng123")
  {
  }

  /** `__repr__` shows name, host and port only: it is the same whatever the user and password. */
  lemma ReprHidesCredentials(c: Settings, user: string, password: string)
    ensures Repr(c.(user := user, password := password)) == Repr(c)
  {
  }
}
