/** app/core/config.py: the `Settings` read from the process environment.
    The environment is a parameter (a map from variable name to value);
    `load_dotenv` is not modelled. */
module Config {
  import opened Wrappers
  import opened Text

  type Env = map<string, string>

  /** `os.getenv(key, default)`. */
  function Getenv(env: Env, key: string, default: string): (v: string)
    ensures key in env ==> v == env[key]
    ensures key !in env ==> v == default
  {
    if key in env then env[key] else default
  }

  const DefaultCorsOrigins := "[\"*\"]"
  const UriScheme := "postgresql+asyncpg://"

  /** The class attributes of `Settings`, each as evaluated once at import. */
  datatype Settings = Settings(
    projectName: string,
    apiV1Str: string,
    secretKey: string,
    algorithm: string,
    accessTokenExpireMinutes: int,
    refreshTokenExpireDays: int,
    postgresUser: string,
    postgresPassword: string,
    postgresHost: string,
    postgresPort: string,
    postgresDb: string,
    metricsPort: int,
    backendCorsOrigins: seq<string>)

  /** `BACKEND_CORS_ORIGINS`: `raw.strip("[]").split(",")`. The result is
      never empty, no origin contains a comma, and joining the origins with
      commas gives back the stripped string. */
  function CorsOrigins(raw: string): (origins: seq<string>)
    ensures |origins| >= 1
    ensures forall k :: 0 <= k < |origins| ==> ',' !in origins[k]
    ensures Join(origins, ',') == Strip(raw, {'[', ']'})
    ensures |origins| == Count(Strip(raw, {'[', ']'}), ',') + 1
  {
    var stripped := Strip(raw, {'[', ']'});
    JoinSplit(stripped, ',');
    SplitCount(stripped, ',');
    Split(stripped, ',')
  }

  /** Stripping brackets from a bracketed string whose ends are not
      brackets removes exactly the two outer brackets. */
  lemma StripOuterBrackets(inner: string)
    requires inner != [] && inner[0] !in {'[', ']'} && inner[|inner| - 1] !in {'[', ']'}
    ensures Strip("[" + inner + "]", {'[', ']'}) == inner
  {
    var chars := {'[', ']'};
    var raw := "[" + inner + "]";
    assert raw == ['['] + (inner + "]");
    StripLeftOne('[', inner + "]", chars);
    StripRightOne(inner, ']', chars);
  }

  /** A string without the separator splits into itself. */
  lemma {:induction false} SplitWithoutSeparator(s: string, sep: char)
    requires sep !in s
    ensures Split(s, sep) == [s]
  {
    if s != [] {
      var init := s[..|s| - 1];
      var c := s[|s| - 1];
      assert sep !in init && c != sep by {
        assert forall x :: x in init ==> x in s;
      }
      SplitWithoutSeparator(init, sep);
      assert Split(s, sep) == [init + [c]];
      assert init + [c] == s;
    }
  }

  /** The origins of a bracketed list are the comma-separated pieces of
      what is between the brackets. */
  lemma CorsOriginsOfBracketed(inner: string)
    requires inner != [] && inner[0] !in {'[', ']'} && inner[|inner| - 1] !in {'[', ']'}
    ensures CorsOrigins("[" + inner + "]") == Split(inner, ',')
  {
    StripOuterBrackets(inner);
  }

  /** With the default value the origin list is the single string `"*"`
      WITH its double quotes: the JSON-looking default is not parsed. */
  lemma DefaultCorsOriginsKeepQuotes()
    ensures CorsOrigins(DefaultCorsOrigins) == ["\"*\""]
  {
    var inner := "\"*\"";
    assert DefaultCorsOrigins == "[" + inner + "]";
    CorsOriginsOfBracketed(inner);
    SplitWithoutSeparator(inner, ',');
  }

  /** Spaces after the commas are kept: `[a, b]` gives `a` and ` b` for
      any two comma-free pieces that do not put a bracket at either end. */
  lemma CorsOriginsKeepSpaces(a: string, b: string)
    requires ',' !in a && ',' !in b
    requires a == [] || a[0] !in {'[', ']'}
    requires b == [] || b[|b| - 1] !in {'[', ']'}
    ensures CorsOrigins("[" + a + ", " + b + "]") == [a, " " + b]
  {
    var inner := a + ", " + b;
    PairEnds(a, b);
    SplitPair(a, b);
    CorsOriginsOfBracketed(inner);
    BracketedPair(a, b);
  }

  lemma BracketedPair(a: string, b: string)
    ensures "[" + a + ", " + b + "]" == "[" + (a + ", " + b) + "]"
  {
  }

  lemma PairEnds(a: string, b: string)
    requires a == [] || a[0] !in {'[', ']'}
    requires b == [] || b[|b| - 1] !in {'[', ']'}
    ensures var inner := a + ", " + b;
      inner[0] !in {'[', ']'} && inner[|inner| - 1] !in {'[', ']'}
  {
    var inner := a + ", " + b;
    if a == [] { assert inner[0] == ','; } else { assert inner[0] == a[0]; }
    if b == [] { assert inner[|inner| - 1] == ' '; } else { assert inner[|inner| - 1] == b[|b| - 1]; }
  }

  lemma SplitPair(a: string, b: string)
    requires ',' !in a && ',' !in b
    ensures Split(a + ", " + b, ',') == [a, " " + b]
  {
    assert a + ", " + b == a + [','] + (" " + b);
    assert ',' !in " " + b by { assert forall x :: x in " " + b ==> x == ' ' || x in b; }
    SplitAppendPiece(a, " " + b, ',');
    SplitWithoutSeparator(a, ',');
  }

  /** Appending a separator and a piece without separators adds that
      piece to the split. */
  lemma {:induction false} SplitAppendPiece(x: string, b: string, sep: char)
    requires sep !in b
    ensures Split(x + [sep] + b, sep) == Split(x, sep) + [b]
  {
    var s := x + [sep] + b;
    if b == [] {
      assert s[..|s| - 1] == x && s[|s| - 1] == sep;
    } else {
      var b' := b[..|b| - 1];
      var c := b[|b| - 1];
      assert sep !in b' && c != sep by {
        assert forall y :: y in b' ==> y in b;
      }
      SplitAppendPiece(x, b', sep);
      assert s[..|s| - 1] == x + [sep] + b' && s[|s| - 1] == c;
      assert b' + [c] == b;
    }
  }

  /** `uri` is `a`, then `u`, `:`, `p`, `@`, `h`, `:`, `o`, `/`, `d`, each
      piece at its place. */
  predicate UriLayoutOf(uri: string, a: string, u: string, p: string, h: string, o: string, d: string)
  {
    var i0 := |a|;
    var i1 := i0 + |u| + 1;
    var i2 := i1 + |p| + 1;
    var i3 := i2 + |h| + 1;
    var i4 := i3 + |o| + 1;
    && |uri| == i4 + |d|
    && uri[..i0] == a
    && uri[i0..i1 - 1] == u && uri[i1 - 1] == ':'
    && uri[i1..i2 - 1] == p && uri[i2 - 1] == '@'
    && uri[i2..i3 - 1] == h && uri[i3 - 1] == ':'
    && uri[i3..i4 - 1] == o && uri[i4 - 1] == '/'
    && uri[i4..] == d
  }

  /** `DATABASE_URI`: the scheme, then user, `:`, password, `@`, host, `:`,
      port, `/`, database, each component at its place and unescaped. */
  function DatabaseUri(s: Settings): (uri: string)
    ensures UriLayoutOf(uri, UriScheme, s.postgresUser, s.postgresPassword, s.postgresHost, s.postgresPort, s.postgresDb)
  {
    var uri := UriScheme + s.postgresUser + ":" + s.postgresPassword + "@" + s.postgresHost
               + ":" + s.postgresPort + "/" + s.postgresDb;
    UriLayout(UriScheme, s.postgresUser, s.postgresPassword, s.postgresHost, s.postgresPort, s.postgresDb);
    uri
  }

  lemma UriLayout(a: string, u: string, p: string, h: string, o: string, d: string)
    ensures UriLayoutOf(a + u + ":" + p + "@" + h + ":" + o + "/" + d, a, u, p, h, o, d)
  {
    var x1 := a + u;
    var x2 := x1 + ":";
    var x3 := x2 + p;
    var x4 := x3 + "@";
    var x5 := x4 + h;
    var x6 := x5 + ":";
    var x7 := x6 + o;
    var x8 := x7 + "/";
    var uri := x8 + d;
    UriPrefixes(a, u, p, h, o, d);
    assert uri[|a|..|x1|] == u by { PrefixOf(a, u); Between(uri, |a|, |x1|, u); }
    assert uri[|x2|..|x3|] == p by { PrefixOf(x2, p); Between(uri, |x2|, |x3|, p); }
    assert uri[|x4|..|x5|] == h by { PrefixOf(x4, h); Between(uri, |x4|, |x5|, h); }
    assert uri[|x6|..|x7|] == o by { PrefixOf(x6, o); Between(uri, |x6|, |x7|, o); }
    assert uri[|x1|] == ':' by { assert uri[|x1|] == uri[..|x2|][|x1|]; }
    assert uri[|x3|] == '@' by { assert uri[|x3|] == uri[..|x4|][|x3|]; }
    assert uri[|x5|] == ':' by { assert uri[|x5|] == uri[..|x6|][|x5|]; }
    assert uri[|x7|] == '/' by { assert uri[|x7|] == uri[..|x8|][|x7|]; }
  }

  /** Every left-nested prefix of the URI is a prefix of it. */
  lemma UriPrefixes(a: string, u: string, p: string, h: string, o: string, d: string)
    ensures var x1 := a + u;
      var x2 := x1 + ":";
      var x3 := x2 + p;
      var x4 := x3 + "@";
      var x5 := x4 + h;
      var x6 := x5 + ":";
      var x7 := x6 + o;
      var x8 := x7 + "/";
      var uri := x8 + d;
      && uri[..|x8|] == x8 && uri[|x8|..] == d && uri[..|x7|] == x7 && uri[..|x6|] == x6
      && uri[..|x5|] == x5 && uri[..|x4|] == x4 && uri[..|x3|] == x3 && uri[..|x2|] == x2
      && uri[..|x1|] == x1 && uri[..|a|] == a
  {
    var x1 := a + u;
    var x2 := x1 + ":";
    var x3 := x2 + p;
    var x4 := x3 + "@";
    var x5 := x4 + h;
    var x6 := x5 + ":";
    var x7 := x6 + o;
    var x8 := x7 + "/";
    var uri := x8 + d;
    assert uri[..|x8|] == x8 && uri[|x8|..] == d by { PrefixOf(x8, d); }
    assert uri[..|x7|] == x7 by { PrefixOf(x7, "/"); TakeTake(uri, |x7|, |x8|); }
    assert uri[..|x6|] == x6 by { PrefixOf(x6, o); TakeTake(uri, |x6|, |x7|); }
    assert uri[..|x5|] == x5 by { PrefixOf(x5, ":"); TakeTake(uri, |x5|, |x6|); }
    assert uri[..|x4|] == x4 by { PrefixOf(x4, h); TakeTake(uri, |x4|, |x5|); }
    assert uri[..|x3|] == x3 by { PrefixOf(x3, "@"); TakeTake(uri, |x3|, |x4|); }
    assert uri[..|x2|] == x2 by { PrefixOf(x2, p); TakeTake(uri, |x2|, |x3|); }
    assert uri[..|x1|] == x1 by { PrefixOf(x1, ":"); TakeTake(uri, |x1|, |x2|); }
    assert uri[..|a|] == a by { PrefixOf(a, u); TakeTake(uri, |a|, |x1|); }
  }

  lemma PrefixOf(x: string, y: string)
    ensures (x + y)[..|x|] == x && (x + y)[|x|..] == y
  {
  }

  lemma TakeTake(s: string, i: nat, j: nat)
    requires i <= j <= |s|
    ensures s[..j][..i] == s[..i]
  {
  }

  /** A slice ending where a prefix ends is the tail of that prefix. */
  lemma Between(s: string, i: nat, j: nat, piece: string)
    requires i <= j <= |s| && s[..j][i..] == piece
    ensures s[i..j] == piece
  {
    assert s[i..j] == s[..j][i..];
  }
  /** Nothing is URL-encoded, so an `@` in the password and one in the host
      cannot be told apart: two different settings give the same URI. */
  lemma DatabaseUriAmbiguous(s: Settings)
    requires s.postgresPassword == "a@b" && s.postgresHost == "c"
    ensures s != s.(postgresPassword := "a", postgresHost := "b@c")
    ensures DatabaseUri(s) == DatabaseUri(s.(postgresPassword := "a", postgresHost := "b@c"))
  {
    AtSignMoves(UriScheme + s.postgresUser + ":");
  }

  lemma AtSignMoves(pre: string)
    ensures pre + "a@b" + "@" + "c" == pre + "a" + "@" + "b@c"
  {
    assert "a@b" + "@" + "c" == "a" + "@" + "b@c";
    assert pre + "a@b" + "@" + "c" == pre + ("a@b" + "@" + "c");
    assert pre + "a" + "@" + "b@c" == pre + ("a" + "@" + "b@c");
  }

  /** `Settings()` over `env`: the string attributes are the variable or its
      default; the three integer attributes go through `int()`, whose
      ValueError on a malformed value aborts the import. */
  function LoadSettings(env: Env): (r: Result<Settings, string>)
    ensures r.Err? <==>
      || ParseInt(Getenv(env, "ACCESS_TOKEN_EXPIRE_MINUTES", "30")).None?
      || ParseInt(Getenv(env, "REFRESH_TOKEN_EXPIRE_DAYS", "7")).None?
      || ParseInt(Getenv(env, "METRICS_PORT", "9090")).None?
    ensures r.Err? ==> r.error == "ValueError"
    ensures r.Ok? ==>
      && r.value.projectName == Getenv(env, "PROJECT_NAME", "Claim Processing API")
      && r.value.apiV1Str == Getenv(env, "API_V1_STR", "/api/v1")
      && r.value.secretKey == Getenv(env, "SECRET_KEY", "supersecretkey")
      && r.value.algorithm == Getenv(env, "ALGORITHM", "HS256")
      && Some(r.value.accessTokenExpireMinutes) == ParseInt(Getenv(env, "ACCESS_TOKEN_EXPIRE_MINUTES", "30"))
      && Some(r.value.refreshTokenExpireDays) == ParseInt(Getenv(env, "REFRESH_TOKEN_EXPIRE_DAYS", "7"))
      && Some(r.value.metricsPort) == ParseInt(Getenv(env, "METRICS_PORT", "9090"))
      && r.value.postgresUser == Getenv(env, "POSTGRES_USER", "postgres")
      && r.value.postgresPassword == Getenv(env, "POSTGRES_PASSWORD", "postgres")
      && r.value.postgresHost == Getenv(env, "POSTGRES_HOST", "db")
      && r.value.postgresPort == Getenv(env, "POSTGRES_PORT", "5432")
      && r.value.postgresDb == Getenv(env, "POSTGRES_DB", "claims_db")
      && r.value.backendCorsOrigins == CorsOrigins(Getenv(env, "BACKEND_CORS_ORIGINS", DefaultCorsOrigins))
  {
    var access := ParseInt(Getenv(env, "ACCESS_TOKEN_EXPIRE_MINUTES", "30"));
    var refresh := ParseInt(Getenv(env, "REFRESH_TOKEN_EXPIRE_DAYS", "7"));
    var metrics := ParseInt(Getenv(env, "METRICS_PORT", "9090"));
    if access.None? || refresh.None? || metrics.None? then Err("ValueError")
    else
      Ok(Settings(
        Getenv(env, "PROJECT_NAME", "Claim Processing API"),
        Getenv(env, "API_V1_STR", "/api/v1"),
        Getenv(env, "SECRET_KEY", "supersecretkey"),
        Getenv(env, "ALGORITHM", "HS256"),
        access.value,
        refresh.value,
        Getenv(env, "POSTGRES_USER", "postgres"),
        Getenv(env, "POSTGRES_PASSWORD", "postgres"),
        Getenv(env, "POSTGRES_HOST", "db"),
        Getenv(env, "POSTGRES_PORT", "5432"),
        Getenv(env, "POSTGRES_DB", "claims_db"),
        metrics.value,
        CorsOrigins(Getenv(env, "BACKEND_CORS_ORIGINS", DefaultCorsOrigins))))
  }

  /** With nothing set, the settings are the documented defaults and the
      database URI points at `db:5432/claims_db` as `postgres`. */
  lemma DefaultSettings()
    ensures LoadSettings(map[]).Ok?
    ensures var s := LoadSettings(map[]).value;
      && s.projectName == "Claim Processing API"
      && s.apiV1Str == "/api/v1"
      && s.secretKey == "supersecretkey"
      && s.algorithm == "HS256"
      && s.accessTokenExpireMinutes == 30
      && s.refreshTokenExpireDays == 7
      && s.postgresPort == "5432"
      && s.metricsPort == 9090
      && s.backendCorsOrigins == ["\"*\""]
      && s.postgresUser == "postgres" && s.postgresPassword == "postgres"
      && s.postgresHost == "db" && s.postgresDb == "claims_db"
  {
    var env: Env := map[];
    assert LoadSettings(env) == Ok(Settings(
      "Claim Processing API", "/api/v1", "supersecretkey", "HS256", 30, 7,
      "postgres", "postgres", "db", "5432", "claims_db", 9090, ["\"*\""])) by {
      ParseThirty();
      ParseSeven();
      ParseNinetyNinety();
      DefaultCorsOriginsKeepQuotes();
    }
  }

  lemma ParseThirty()
    ensures ParseInt("30") == Some(30)
  {
    assert "30"[..1] == "3";
    assert AllDigits("30") && DigitsValue("30") == 30;
  }

  lemma ParseSeven()
    ensures ParseInt("7") == Some(7)
  {
    assert AllDigits("7") && DigitsValue("7") == 7;
  }

  lemma ParseNinetyNinety()
    ensures ParseInt("9090") == Some(9090)
  {
    assert "9090"[..3] == "909" && "909"[..2] == "90" && "90"[..1] == "9";
    assert AllDigits("9090") && DigitsValue("9090") == 9090;
  }

  /** The default database URI. */
  lemma DefaultDatabaseUri(s: Settings)
    requires s.postgresUser == "postgres" && s.postgresPassword == "postgres"
    requires s.postgresHost == "db" && s.postgresPort == "5432" && s.postgresDb == "claims_db"
    ensures DatabaseUri(s) == "postgresql+asyncpg://postgres:postgres@db:5432/claims_db"
  {
    var a := UriScheme + "postgres" + ":" + "postgres";
    assert a == "postgresql+asyncpg://postgres:postgres";
    var b := a + "@" + "db" + ":" + "5432";
    assert b == "postgresql+asyncpg://postgres:postgres@db:5432";
    assert b + "/" + "claims_db" == "postgresql+asyncpg://postgres:postgres@db:5432/claims_db";
  }

  /** An access-token expiry holding an ASCII letter or a dot anywhere
      (`thirty`, `3O`, `30m`, `30.0`) makes loading fail, whatever else is
      set: `int` accepts neither in a base-10 literal. */
  lemma MalformedExpiryFails(env: Env, i: nat)
    requires "ACCESS_TOKEN_EXPIRE_MINUTES" in env
    requires var v := env["ACCESS_TOKEN_EXPIRE_MINUTES"];
      i < |v| && ('a' <= v[i] <= 'z' || 'A' <= v[i] <= 'Z' || v[i] == '.')
    ensures LoadSettings(env) == Err("ValueError")
  {
    var v := env["ACCESS_TOKEN_EXPIRE_MINUTES"];
    assert ParseInt(v).None? by {
      assert !IsDigit(v[i]) && v[i] != '+' && v[i] != '-';
      assert !AllDigits(v);
      if |v| >= 2 && v[0] in {'+', '-'} {
        assert v[1..][i - 1] == v[i];
      }
    }
    assert Getenv(env, "ACCESS_TOKEN_EXPIRE_MINUTES", "30") == v;
  }
}
