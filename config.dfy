/**
 * The application configuration: a JSON file read into a zero `Config`,
 * then defaults for the unset server, database, scraper and cache settings,
 * then `WHEREITS_*` environment variables, and finally a check that the
 * database and at least one music and one event source are configured.
 *
 * The environment is a map from variable name to value; an absent variable
 * reads as "", as `os.Getenv` does. Reading and decoding the file are
 * parameters holding their outcome.
 */
module Configuration {
  import opened Wrappers
  import opened Domain
  import opened Text
  import opened Numerals
  import opened Sequences
  import Dedup

  // ------------------------------------------------------------------- data

  datatype ServerConfig = ServerConfig(port: string, readTimeout: int, writeTimeout: int)

  datatype DatabaseConfig = DatabaseConfig(host: string, port: int, user: string, password: string, database: string, sslMode: string)

  datatype SpotifyConfig = SpotifyConfig(clientID: string, clientSecret: string, redirectURI: string)
  datatype AppleMusicConfig = AppleMusicConfig(teamID: string, keyID: string, privateKey: string, countryCode: string)
  datatype DeezerConfig = DeezerConfig(appID: string, appSecret: string)

  datatype APIConfig = APIConfig(
    spotify: SpotifyConfig,
    appleMusic: AppleMusicConfig,
    youTubeAPIKey: string,
    musicBrainzUserAgent: string,
    deezer: DeezerConfig,
    soundCloudClientID: string,
    songkickAPIKey: string,
    ticketmasterAPIKey: string,
    eventbriteToken: string,
    setlistFMAPIKey: string)

  datatype ScraperConfig = ScraperConfig(userAgent: string, rateLimitSeconds: int, timeout: int)

  datatype CacheConfig = CacheConfig(eventCacheDuration: int)

  /** A snapshot of every setting of a `Config`. */
  datatype Settings = Settings(server: ServerConfig, database: DatabaseConfig, apis: APIConfig, scrapers: ScraperConfig, cache: CacheConfig)

  /** The zero `Config` that the file is decoded into. */
  const ZeroSettings := Settings(
    ServerConfig("", 0, 0),
    DatabaseConfig("", 0, "", "", "", ""),
    APIConfig(SpotifyConfig("", "", ""), AppleMusicConfig("", "", "", ""), "", "", DeezerConfig("", ""), "", "", "", "", ""),
    ScraperConfig("", 0, 0),
    CacheConfig(0))

  /** The configuration, whose settings are changed in place. */
  class Config {
    var server: ServerConfig
    var database: DatabaseConfig
    var apis: APIConfig
    var scrapers: ScraperConfig
    var cache: CacheConfig

    function Value(): Settings
      reads this
    {
      Settings(server, database, apis, scrapers, cache)
    }

    constructor (s: Settings)
      ensures Value() == s
    {
      server, database, apis, scrapers, cache := s.server, s.database, s.apis, s.scrapers, s.cache;
    }

    /** `applyDefaults`: each unset defaulted setting takes its default. */
    method ApplyDefaults()
      modifies this
      ensures Value() == Defaulted(old(Value()))
    {
      ghost var v := Value();
      var s, d, a, c, k := server, database, apis, scrapers, cache;
      if s.port == "" {
        s := s.(port := "8080");
      }
      if s.readTimeout == 0 {
        s := s.(readTimeout := 30);
      }
      if s.writeTimeout == 0 {
        s := s.(writeTimeout := 30);
      }
      assert s == DefaultServer(v.server);
      if d.port == 0 {
        d := d.(port := 5432);
      }
      if d.sslMode == "" {
        d := d.(sslMode := "disable");
      }
      assert d == DefaultDatabase(v.database);
      if a.musicBrainzUserAgent == "" {
        a := a.(musicBrainzUserAgent := "WhereItsAt/1.0");
      }
      if c.userAgent == "" {
        c := c.(userAgent := "Mozilla/5.0 (compatible; WhereItsAt/1.0)");
      }
      if c.rateLimitSeconds == 0 {
        c := c.(rateLimitSeconds := 2);
      }
      if c.timeout == 0 {
        c := c.(timeout := 30);
      }
      assert a == DefaultAPIs(v.apis);
      assert c == DefaultScrapers(v.scrapers);
      if k.eventCacheDuration == 0 {
        k := k.(eventCacheDuration := 24);
      }
      assert k == DefaultCache(v.cache);
      server, database, apis, scrapers, cache := s, d, a, c, k;
      assert Value() == Settings(s, d, a, c, k);
    }

    /** `applyEnvOverrides`: the variables of `EnvVars`, in order, each setting its field when non-empty. */
    method ApplyEnvOverrides(env: map<string, string>)
      modifies this
      ensures Value() == Overridden(old(Value()), env)
    {
      ghost var start := Value();
      for i := 0 to |EnvVars|
        invariant Value() == Overrides(start, env, EnvVars[..i])
      {
        assert EnvVars[..i + 1][..i] == EnvVars[..i];
        var (name, field) := EnvVars[i];
        var v := Getenv(env, name);
        if v != "" {
          Assign(field, v);
        }
      }
      assert EnvVars[..|EnvVars|] == EnvVars;
    }

    /** Sets the string setting `f` to `v`. */
    method Assign(f: Field, v: string)
      modifies this
      ensures Value() == Set(old(Value()), f, v)
    {
      match f
      case ServerPort => server := server.(port := v);
      case DatabaseHost => database := database.(host := v);
      case DatabaseUser => database := database.(user := v);
      case DatabasePassword => database := database.(password := v);
      case DatabaseName => database := database.(database := v);
      case SpotifyClientID => apis := apis.(spotify := apis.spotify.(clientID := v));
      case SpotifyClientSecret => apis := apis.(spotify := apis.spotify.(clientSecret := v));
      case AppleMusicTeamID => apis := apis.(appleMusic := apis.appleMusic.(teamID := v));
      case AppleMusicKeyID => apis := apis.(appleMusic := apis.appleMusic.(keyID := v));
      case AppleMusicPrivateKey => apis := apis.(appleMusic := apis.appleMusic.(privateKey := v));
      case YouTubeAPIKey => apis := apis.(youTubeAPIKey := v);
      case DeezerAppID => apis := apis.(deezer := apis.deezer.(appID := v));
      case DeezerAppSecret => apis := apis.(deezer := apis.deezer.(appSecret := v));
      case SoundCloudClientID => apis := apis.(soundCloudClientID := v);
      case SongkickAPIKey => apis := apis.(songkickAPIKey := v);
      case TicketmasterAPIKey => apis := apis.(ticketmasterAPIKey := v);
      case EventbriteToken => apis := apis.(eventbriteToken := v);
      case SetlistFMAPIKey => apis := apis.(setlistFMAPIKey := v);
    }

    /** `Validate`: no error exactly when nothing required is missing. */
    method Validate() returns (err: Option<Error>)
      ensures err == ValidationError(Value())
    {
      var missing: seq<string> := [];
      if database.host == "" {
        missing := missing + ["database.host"];
      }
      if database.user == "" {
        missing := missing + ["database.user"];
      }
      if database.database == "" {
        missing := missing + ["database.database"];
      }
      assert missing == DatabaseMissing(Value());
      var hasMusic := false;
      if apis.spotify.clientID != "" && apis.spotify.clientSecret != "" {
        hasMusic := true;
      }
      if apis.appleMusic.teamID != "" && apis.appleMusic.keyID != "" {
        hasMusic := true;
      }
      if apis.youTubeAPIKey != "" {
        hasMusic := true;
      }
      if apis.deezer.appID != "" {
        hasMusic := true;
      }
      if apis.soundCloudClientID != "" {
        hasMusic := true;
      }
      assert hasMusic == HasMusic(Value());
      if !hasMusic {
        missing := missing + ["at least one music API"];
      }
      ghost var seen := missing;
      assert seen == DatabaseMissing(Value()) + (if !HasMusic(Value()) then ["at least one music API"] else []);
      var hasEvents := false;
      if apis.songkickAPIKey != "" {
        hasEvents := true;
      }
      if apis.ticketmasterAPIKey != "" {
        hasEvents := true;
      }
      if apis.eventbriteToken != "" {
        hasEvents := true;
      }
      if apis.setlistFMAPIKey != "" {
        hasEvents := true;
      }
      assert hasEvents == HasEvents(Value());
      if !hasEvents {
        missing := missing + ["at least one event API"];
      }
      assert missing == Missing(Value());
      if |missing| > 0 {
        return Some(Failure("missing required configuration: " + Join(missing, ", ")));
      }
      return None;
    }
  }

  // --------------------------------------------------------------- defaults

  /** The defaults of `applyDefaults`, each applied only where the setting is zero. */
  function Defaulted(v: Settings): Settings
  {
    Settings(DefaultServer(v.server), DefaultDatabase(v.database), DefaultAPIs(v.apis), DefaultScrapers(v.scrapers), DefaultCache(v.cache))
  }

  function DefaultServer(s: ServerConfig): ServerConfig
  {
    ServerConfig(
      if s.port == "" then "8080" else s.port,
      if s.readTimeout == 0 then 30 else s.readTimeout,
      if s.writeTimeout == 0 then 30 else s.writeTimeout)
  }

  function DefaultDatabase(d: DatabaseConfig): DatabaseConfig
  {
    d.(port := if d.port == 0 then 5432 else d.port, sslMode := if d.sslMode == "" then "disable" else d.sslMode)
  }

  function DefaultAPIs(a: APIConfig): APIConfig
  {
    a.(musicBrainzUserAgent := if a.musicBrainzUserAgent == "" then "WhereItsAt/1.0" else a.musicBrainzUserAgent)
  }

  function DefaultScrapers(c: ScraperConfig): ScraperConfig
  {
    ScraperConfig(
      if c.userAgent == "" then "Mozilla/5.0 (compatible; WhereItsAt/1.0)" else c.userAgent,
      if c.rateLimitSeconds == 0 then 2 else c.rateLimitSeconds,
      if c.timeout == 0 then 30 else c.timeout)
  }

  function DefaultCache(c: CacheConfig): CacheConfig
  {
    CacheConfig(if c.eventCacheDuration == 0 then 24 else c.eventCacheDuration)
  }

  /** No defaulted setting is zero. */
  predicate Complete(v: Settings)
  {
    && v.server.port != "" && v.server.readTimeout != 0 && v.server.writeTimeout != 0
    && v.database.port != 0 && v.database.sslMode != ""
    && v.apis.musicBrainzUserAgent != ""
    && v.scrapers.userAgent != "" && v.scrapers.rateLimitSeconds != 0 && v.scrapers.timeout != 0
    && v.cache.eventCacheDuration != 0
  }

  /** `d` has every defaulted setting that `v` sets, unchanged. */
  predicate Keeps(v: Settings, d: Settings)
  {
    && (v.server.port != "" ==> d.server.port == v.server.port)
    && (v.server.readTimeout != 0 ==> d.server.readTimeout == v.server.readTimeout)
    && (v.server.writeTimeout != 0 ==> d.server.writeTimeout == v.server.writeTimeout)
    && (v.database.port != 0 ==> d.database.port == v.database.port)
    && (v.database.sslMode != "" ==> d.database.sslMode == v.database.sslMode)
    && (v.apis.musicBrainzUserAgent != "" ==> d.apis.musicBrainzUserAgent == v.apis.musicBrainzUserAgent)
    && (v.scrapers.userAgent != "" ==> d.scrapers.userAgent == v.scrapers.userAgent)
    && (v.scrapers.rateLimitSeconds != 0 ==> d.scrapers.rateLimitSeconds == v.scrapers.rateLimitSeconds)
    && (v.scrapers.timeout != 0 ==> d.scrapers.timeout == v.scrapers.timeout)
    && (v.cache.eventCacheDuration != 0 ==> d.cache.eventCacheDuration == v.cache.eventCacheDuration)
  }

  /**
   * Defaults leave every setting that was already set, and every setting
   * without a default, as it was; after them no defaulted setting is zero.
   */
  lemma DefaultsFillOnlyGaps(v: Settings)
    ensures Complete(Defaulted(v))
    ensures Complete(v) ==> Defaulted(v) == v
    ensures Keeps(v, Defaulted(v))
    ensures Defaulted(v).database == v.database.(port := Defaulted(v).database.port, sslMode := Defaulted(v).database.sslMode)
    ensures Defaulted(v).apis == v.apis.(musicBrainzUserAgent := Defaulted(v).apis.musicBrainzUserAgent)
  {
  }

  /** Applying the defaults a second time changes nothing. */
  lemma DefaultsIdempotent(v: Settings)
    ensures Defaulted(Defaulted(v)) == Defaulted(v)
  {
    DefaultsFillOnlyGaps(v);
    DefaultsFillOnlyGaps(Defaulted(v));
  }

  /** The defaults of an empty configuration. */
  lemma ZeroDefaults()
    ensures Defaulted(ZeroSettings).server == ServerConfig("8080", 30, 30)
    ensures Defaulted(ZeroSettings).database == DatabaseConfig("", 5432, "", "", "", "disable")
    ensures Defaulted(ZeroSettings).apis == ZeroSettings.apis.(musicBrainzUserAgent := "WhereItsAt/1.0")
    ensures Defaulted(ZeroSettings).scrapers == ScraperConfig("Mozilla/5.0 (compatible; WhereItsAt/1.0)", 2, 30)
    ensures Defaulted(ZeroSettings).cache == CacheConfig(24)
  {
  }

  // ---------------------------------------------------------- environment

  /** The string settings an environment variable can set. */
  datatype Field =
    | ServerPort
    | DatabaseHost | DatabaseUser | DatabasePassword | DatabaseName
    | SpotifyClientID | SpotifyClientSecret
    | AppleMusicTeamID | AppleMusicKeyID | AppleMusicPrivateKey
    | YouTubeAPIKey
    | DeezerAppID | DeezerAppSecret
    | SoundCloudClientID
    | SongkickAPIKey
    | TicketmasterAPIKey
    | EventbriteToken
    | SetlistFMAPIKey

  /** The overrides of `applyEnvOverrides`, in its order. */
  const EnvVars: seq<(string, Field)> := [
    ("WHEREITS_SERVER_PORT", ServerPort),
    ("WHEREITS_DATABASE_HOST", DatabaseHost),
    ("WHEREITS_DATABASE_USER", DatabaseUser),
    ("WHEREITS_DATABASE_PASSWORD", DatabasePassword),
    ("WHEREITS_DATABASE_NAME", DatabaseName),
    ("WHEREITS_SPOTIFY_CLIENT_ID", SpotifyClientID),
    ("WHEREITS_SPOTIFY_CLIENT_SECRET", SpotifyClientSecret),
    ("WHEREITS_APPLE_MUSIC_TEAM_ID", AppleMusicTeamID),
    ("WHEREITS_APPLE_MUSIC_KEY_ID", AppleMusicKeyID),
    ("WHEREITS_APPLE_MUSIC_PRIVATE_KEY", AppleMusicPrivateKey),
    ("WHEREITS_YOUTUBE_API_KEY", YouTubeAPIKey),
    ("WHEREITS_DEEZER_APP_ID", DeezerAppID),
    ("WHEREITS_DEEZER_APP_SECRET", DeezerAppSecret),
    ("WHEREITS_SOUNDCLOUD_CLIENT_ID", SoundCloudClientID),
    ("WHEREITS_SONGKICK_API_KEY", SongkickAPIKey),
    ("WHEREITS_TICKETMASTER_API_KEY", TicketmasterAPIKey),
    ("WHEREITS_EVENTBRITE_TOKEN", EventbriteToken),
    ("WHEREITS_SETLISTFM_API_KEY", SetlistFMAPIKey)]

  /** The position of a field's variable in `EnvVars`. */
  function Rank(f: Field): nat
  {
    match f
    case ServerPort => 0
    case DatabaseHost => 1
    case DatabaseUser => 2
    case DatabasePassword => 3
    case DatabaseName => 4
    case SpotifyClientID => 5
    case SpotifyClientSecret => 6
    case AppleMusicTeamID => 7
    case AppleMusicKeyID => 8
    case AppleMusicPrivateKey => 9
    case YouTubeAPIKey => 10
    case DeezerAppID => 11
    case DeezerAppSecret => 12
    case SoundCloudClientID => 13
    case SongkickAPIKey => 14
    case TicketmasterAPIKey => 15
    case EventbriteToken => 16
    case SetlistFMAPIKey => 17
  }

  /** Every field has exactly one variable: the one at its rank. */
  lemma RankTable()
    ensures forall i :: 0 <= i < |EnvVars| ==> Rank(EnvVars[i].1) == i
    ensures forall f :: Rank(f) < |EnvVars| && EnvVars[Rank(f)].1 == f
  {
    forall f ensures Rank(f) < |EnvVars| && EnvVars[Rank(f)].1 == f {
      match f
      case ServerPort =>
      case DatabaseHost =>
      case DatabaseUser =>
      case DatabasePassword =>
      case DatabaseName =>
      case SpotifyClientID =>
      case SpotifyClientSecret =>
      case AppleMusicTeamID =>
      case AppleMusicKeyID =>
      case AppleMusicPrivateKey =>
      case YouTubeAPIKey =>
      case DeezerAppID =>
      case DeezerAppSecret =>
      case SoundCloudClientID =>
      case SongkickAPIKey =>
      case TicketmasterAPIKey =>
      case EventbriteToken =>
      case SetlistFMAPIKey =>
    }
  }

  /** The variable that sets a field. */
  function VarName(f: Field): string
  {
    RankTable();
    EnvVars[Rank(f)].0
  }

  /** `os.Getenv`: an unset variable reads as the empty string. */
  function Getenv(env: map<string, string>, name: string): string
  {
    if name in env then env[name] else ""
  }

  function Get(v: Settings, f: Field): string
  {
    match f
    case ServerPort => v.server.port
    case DatabaseHost => v.database.host
    case DatabaseUser => v.database.user
    case DatabasePassword => v.database.password
    case DatabaseName => v.database.database
    case SpotifyClientID => v.apis.spotify.clientID
    case SpotifyClientSecret => v.apis.spotify.clientSecret
    case AppleMusicTeamID => v.apis.appleMusic.teamID
    case AppleMusicKeyID => v.apis.appleMusic.keyID
    case AppleMusicPrivateKey => v.apis.appleMusic.privateKey
    case YouTubeAPIKey => v.apis.youTubeAPIKey
    case DeezerAppID => v.apis.deezer.appID
    case DeezerAppSecret => v.apis.deezer.appSecret
    case SoundCloudClientID => v.apis.soundCloudClientID
    case SongkickAPIKey => v.apis.songkickAPIKey
    case TicketmasterAPIKey => v.apis.ticketmasterAPIKey
    case EventbriteToken => v.apis.eventbriteToken
    case SetlistFMAPIKey => v.apis.setlistFMAPIKey
  }

  /** The settings with `f` set to `s`: `f` now reads `s`, and nothing else changes. */
  function Set(v: Settings, f: Field, s: string): (r: Settings)
    ensures forall g :: Get(r, g) == if g == f then s else Get(v, g)
    ensures Rest(r) == Rest(v)
  {
    match f
    case ServerPort => v.(server := v.server.(port := s))
    case DatabaseHost => v.(database := v.database.(host := s))
    case DatabaseUser => v.(database := v.database.(user := s))
    case DatabasePassword => v.(database := v.database.(password := s))
    case DatabaseName => v.(database := v.database.(database := s))
    case SpotifyClientID => v.(apis := v.apis.(spotify := v.apis.spotify.(clientID := s)))
    case SpotifyClientSecret => v.(apis := v.apis.(spotify := v.apis.spotify.(clientSecret := s)))
    case AppleMusicTeamID => v.(apis := v.apis.(appleMusic := v.apis.appleMusic.(teamID := s)))
    case AppleMusicKeyID => v.(apis := v.apis.(appleMusic := v.apis.appleMusic.(keyID := s)))
    case AppleMusicPrivateKey => v.(apis := v.apis.(appleMusic := v.apis.appleMusic.(privateKey := s)))
    case YouTubeAPIKey => v.(apis := v.apis.(youTubeAPIKey := s))
    case DeezerAppID => v.(apis := v.apis.(deezer := v.apis.deezer.(appID := s)))
    case DeezerAppSecret => v.(apis := v.apis.(deezer := v.apis.deezer.(appSecret := s)))
    case SoundCloudClientID => v.(apis := v.apis.(soundCloudClientID := s))
    case SongkickAPIKey => v.(apis := v.apis.(songkickAPIKey := s))
    case TicketmasterAPIKey => v.(apis := v.apis.(ticketmasterAPIKey := s))
    case EventbriteToken => v.(apis := v.apis.(eventbriteToken := s))
    case SetlistFMAPIKey => v.(apis := v.apis.(setlistFMAPIKey := s))
  }

  /** The settings no variable can change: every string setting a variable sets is blanked. */
  function Rest(v: Settings): Settings
  {
    var a := v.apis;
    Settings(
      v.server.(port := ""),
      v.database.(host := "", user := "", password := "", database := ""),
      a.(spotify := a.spotify.(clientID := "", clientSecret := ""),
         appleMusic := a.appleMusic.(teamID := "", keyID := "", privateKey := ""),
         youTubeAPIKey := "",
         deezer := DeezerConfig("", ""),
         soundCloudClientID := "", songkickAPIKey := "", ticketmasterAPIKey := "",
         eventbriteToken := "", setlistFMAPIKey := ""),
      v.scrapers,
      v.cache)
  }

  /** One override: the variable's field takes its value when the value is not empty. */
  function Override(v: Settings, env: map<string, string>, entry: (string, Field)): Settings
  {
    var value := Getenv(env, entry.0);
    if value != "" then Set(v, entry.1, value) else v
  }

  /** The overrides of `vars`, applied in order. */
  function Overrides(v: Settings, env: map<string, string>, vars: seq<(string, Field)>): Settings
    decreases |vars|
  {
    if |vars| == 0 then v
    else Override(Overrides(v, env, vars[..|vars| - 1]), env, vars[|vars| - 1])
  }

  /** The settings after `applyEnvOverrides`. */
  function Overridden(v: Settings, env: map<string, string>): Settings
  {
    Overrides(v, env, EnvVars)
  }

  /** Each entry of `vars` sits at its field's rank. */
  predicate Ranked(vars: seq<(string, Field)>)
  {
    forall i :: 0 <= i < |vars| ==> Rank(vars[i].1) == i
  }

  lemma RankInjective(f: Field, g: Field)
    requires Rank(f) == Rank(g)
    ensures f == g
  {
  }

  /** After a ranked table of overrides, a field has its variable's value exactly when that variable is listed and non-empty. */
  lemma {:induction false} OverridesRanked(v: Settings, env: map<string, string>, vars: seq<(string, Field)>, f: Field)
    requires Ranked(vars)
    ensures Get(Overrides(v, env, vars), f) ==
      if Rank(f) < |vars| && Getenv(env, vars[Rank(f)].0) != "" then Getenv(env, vars[Rank(f)].0) else Get(v, f)
    decreases |vars|
  {
    var n := |vars|;
    if n > 0 {
      var init := vars[..n - 1];
      assert Ranked(init);
      OverridesRanked(v, env, init, f);
      var w := Overrides(v, env, init);
      var entry := vars[n - 1];
      OverridesLast(v, env, vars);
      OverrideOne(w, env, entry, f);
      assert Rank(entry.1) == n - 1;
      if Rank(f) == n - 1 {
        RankInjective(f, entry.1);
        assert Get(w, f) == Get(v, f);
      } else {
        assert entry.1 != f;
        assert Get(Overrides(v, env, vars), f) == Get(w, f);
        if Rank(f) < n - 1 {
          assert init[Rank(f)] == vars[Rank(f)];
        }
      }
    }
  }

  /** Overrides never touch a setting outside the table of variables. */
  lemma {:induction false} OverridesKeepRest(v: Settings, env: map<string, string>, vars: seq<(string, Field)>)
    ensures Rest(Overrides(v, env, vars)) == Rest(v)
    decreases |vars|
  {
    if |vars| > 0 {
      OverridesKeepRest(v, env, vars[..|vars| - 1]);
    }
  }

  lemma OverridesLast(v: Settings, env: map<string, string>, vars: seq<(string, Field)>)
    requires |vars| > 0
    ensures Overrides(v, env, vars) == Override(Overrides(v, env, vars[..|vars| - 1]), env, vars[|vars| - 1])
  {
  }

  /** One override changes at most its own field, and that only to a non-empty value. */
  lemma OverrideOne(w: Settings, env: map<string, string>, entry: (string, Field), f: Field)
    ensures Get(Override(w, env, entry), f) ==
      if entry.1 == f && Getenv(env, entry.0) != "" then Getenv(env, entry.0) else Get(w, f)
  {
  }

  /**
   * The environment wins: a field whose variable is set to a non-empty
   * value takes that value; otherwise it keeps its own; settings no
   * variable names never change.
   */
  lemma EnvironmentWins(v: Settings, env: map<string, string>, f: Field)
    ensures Get(Overridden(v, env), f) == if Getenv(env, VarName(f)) != "" then Getenv(env, VarName(f)) else Get(v, f)
    ensures Rest(Overridden(v, env)) == Rest(v)
  {
    RankTable();
    OverridesRanked(v, env, EnvVars, f);
    OverridesKeepRest(v, env, EnvVars);
  }

  // ------------------------------------------------------------------- load

  /** The outcome of reading the configuration file. */
  datatype FileRead = Read(data: string) | NotExist | ReadFailed(error: Error)

  /** What `Load` starts from: the zero settings, or the decoded file. */
  function Loaded(configPath: string, file: FileRead, decode: string -> Result<Settings>, env: map<string, string>): Result<Settings>
  {
    if configPath != "" && file.ReadFailed? then Err(Wrap("failed to read config file", file.error))
    else if configPath != "" && file.Read? && decode(file.data).Err? then Err(Wrap("failed to parse config file", decode(file.data).error))
    else
      var start := if configPath != "" && file.Read? then decode(file.data).value else ZeroSettings;
      Ok(Overridden(Defaulted(start), env))
  }

  /**
   * `Load`: the file (when a path is given and the file exists) is decoded
   * into the zero configuration, then defaults and then the environment
   * are applied. A missing file is not an error.
   */
  method Load(configPath: string, file: FileRead, decode: string -> Result<Settings>, env: map<string, string>)
    returns (r: Result<Config>)
    ensures r.Err? <==> Loaded(configPath, file, decode, env).Err?
    ensures r.Err? ==> r.error == Loaded(configPath, file, decode, env).error
    ensures r.Ok? ==> fresh(r.value) && r.value.Value() == Loaded(configPath, file, decode, env).value
  {
    var start := ZeroSettings;
    if configPath != "" {
      if file.ReadFailed? {
        return Err(Wrap("failed to read config file", file.error));
      }
      if file.Read? {
        var decoded := decode(file.data);
        if decoded.Err? {
          return Err(Wrap("failed to parse config file", decoded.error));
        }
        start := decoded.value;
      }
    }
    var config := new Config(start);
    config.ApplyDefaults();
    config.ApplyEnvOverrides(env);
    return Ok(config);
  }

  /**
   * A loaded configuration has no zero default, and each variable set to a
   * non-empty value decides its field over the file and the defaults.
   */
  lemma LoadedMeans(configPath: string, file: FileRead, decode: string -> Result<Settings>, env: map<string, string>, f: Field)
    requires Loaded(configPath, file, decode, env).Ok?
    ensures Complete(Loaded(configPath, file, decode, env).value)
    ensures Getenv(env, VarName(f)) != "" ==> Get(Loaded(configPath, file, decode, env).value, f) == Getenv(env, VarName(f))
  {
    var start := if configPath != "" && file.Read? then decode(file.data).value else ZeroSettings;
    var d := Defaulted(start);
    DefaultsFillOnlyGaps(start);
    EnvironmentWins(d, env, f);
    EnvironmentWins(d, env, ServerPort);
  }

  /** Without a file the configuration is the defaults overridden by the environment. */
  lemma LoadWithoutFile(configPath: string, file: FileRead, decode: string -> Result<Settings>, env: map<string, string>)
    requires configPath == "" || file.NotExist?
    ensures Loaded(configPath, file, decode, env) == Ok(Overridden(Defaulted(ZeroSettings), env))
  {
  }

  // ------------------------------------------------------------- validation

  predicate HasMusic(v: Settings)
  {
    var a := v.apis;
    || (a.spotify.clientID != "" && a.spotify.clientSecret != "")
    || (a.appleMusic.teamID != "" && a.appleMusic.keyID != "")
    || a.youTubeAPIKey != ""
    || a.deezer.appID != ""
    || a.soundCloudClientID != ""
  }

  predicate HasEvents(v: Settings)
  {
    var a := v.apis;
    a.songkickAPIKey != "" || a.ticketmasterAPIKey != "" || a.eventbriteToken != "" || a.setlistFMAPIKey != ""
  }

  /** The requirements, in the order `Validate` checks them. */
  const Requirements: seq<string> := ["database.host", "database.user", "database.database", "at least one music API", "at least one event API"]

  /** Whether `v` fails the named requirement. */
  function Lacks(v: Settings): string -> bool
  {
    item =>
      || (item == "database.host" && v.database.host == "")
      || (item == "database.user" && v.database.user == "")
      || (item == "database.database" && v.database.database == "")
      || (item == "at least one music API" && !HasMusic(v))
      || (item == "at least one event API" && !HasEvents(v))
  }

  /** The missing items, as `Validate` collects them. */
  function Missing(v: Settings): seq<string>
  {
    DatabaseMissing(v)
    + (if !HasMusic(v) then ["at least one music API"] else [])
    + (if !HasEvents(v) then ["at least one event API"] else [])
  }

  function DatabaseMissing(v: Settings): seq<string>
  {
    (if v.database.host == "" then ["database.host"] else [])
    + (if v.database.user == "" then ["database.user"] else [])
    + (if v.database.database == "" then ["database.database"] else [])
  }

  function ValidationError(v: Settings): Option<Error>
  {
    if |Missing(v)| > 0 then Some(Failure("missing required configuration: " + Join(Missing(v), ", "))) else None
  }

  /**
   * The missing items are exactly the requirements `v` fails, each once, in
   * the order of `Requirements`.
   */
  lemma MissingInOrder(v: Settings)
    ensures Missing(v) == Filter(Requirements, Lacks(v))
    ensures forall item :: item in Missing(v) <==> item in Requirements && Lacks(v)(item)
    ensures Dedup.IsSubseq(Missing(v), Requirements)
  {
    MissingIsFilter(v);
    FilterKeeps(Requirements, Lacks(v));
  }

  lemma MissingIsFilter(v: Settings)
    ensures Missing(v) == Filter(Requirements, Lacks(v))
  {
    var p := Lacks(v);
    var r := Requirements;
    DatabaseFilter(v);
    assert p(r[3]) == !HasMusic(v);
    assert p(r[4]) == !HasEvents(v);
    FilterStep(r, p, 3);
    FilterStep(r, p, 4);
    assert r[..5] == r;
  }

  lemma DatabaseFilter(v: Settings)
    ensures Filter(Requirements[..3], Lacks(v)) == DatabaseMissing(v)
  {
    var p := Lacks(v);
    var r := Requirements;
    assert p(r[0]) == (v.database.host == "");
    assert p(r[1]) == (v.database.user == "");
    assert p(r[2]) == (v.database.database == "");
    assert r[..0] == [];
    FilterStep(r, p, 0);
    FilterStep(r, p, 1);
    FilterStep(r, p, 2);
  }

  /**
   * `Validate` accepts exactly a configuration with a database host, user
   * and name, one music source and one event source.
   */
  lemma ValidIff(v: Settings)
    ensures ValidationError(v) == None <==>
      v.database.host != "" && v.database.user != "" && v.database.database != "" && HasMusic(v) && HasEvents(v)
    ensures ValidationError(v).Some? ==> ValidationError(v).value == Failure("missing required configuration: " + Join(Missing(v), ", "))
  {
  }

  /** Half of a credential pair is no music source: a Spotify ID without its secret is rejected. */
  lemma SpotifyNeedsBoth(v: Settings)
    requires v.apis.spotify.clientSecret == "" && v.apis.appleMusic.teamID == ""
    requires v.apis.youTubeAPIKey == "" && v.apis.deezer.appID == "" && v.apis.soundCloudClientID == ""
    ensures "at least one music API" in Missing(v)
    ensures ValidationError(v).Some?
  {
  }

  /** The defaults alone never make a configuration valid: the database and the sources are still missing. */
  lemma DefaultsAloneInvalid()
    ensures Missing(Defaulted(ZeroSettings)) == Requirements
  {
  }

  // -------------------------------------------------------------------- DSN

  /**
   * `DatabaseConfig.GetDSN`: the PostgreSQL key=value connection string,
   * the six `key=value` words separated by single spaces.
   */
  function GetDSN(d: DatabaseConfig): string
  {
    Join(DSNWords(d), " ")
  }

  function DSNWords(d: DatabaseConfig): seq<string>
  {
    ["host=" + d.host, "port=" + IntToString(d.port), "user=" + d.user,
     "password=" + d.password, "dbname=" + d.database, "sslmode=" + d.sslMode]
  }

  /**
   * When no value holds white space, the connection string splits back into
   * its six words: host, port, user, password, dbname, sslmode, in this order.
   */
  lemma DSNFields(d: DatabaseConfig)
    requires NoSpace(d.host) && NoSpace(d.user) && NoSpace(d.password) && NoSpace(d.database) && NoSpace(d.sslMode)
    ensures Fields(GetDSN(d)) == ["host=" + d.host, "port=" + IntToString(d.port), "user=" + d.user,
      "password=" + d.password, "dbname=" + d.database, "sslmode=" + d.sslMode]
  {
    KeyedSolid("host=", d.host);
    IntToStringSolid(d.port);
    KeyedSolid("port=", IntToString(d.port));
    KeyedSolid("user=", d.user);
    KeyedSolid("password=", d.password);
    KeyedSolid("dbname=", d.database);
    KeyedSolid("sslmode=", d.sslMode);
    FieldsJoin(DSNWords(d));
  }

  lemma KeyedSolid(key: string, value: string)
    requires |key| > 0 && NoSpace(key) && NoSpace(value)
    ensures Solid(key + value)
  {
    var s := key + value;
    forall j | 0 <= j < |s| ensures !IsSpace(s[j]) {
      if j >= |key| {
        assert s[j] == value[j - |key|];
      }
    }
  }

  lemma IntToStringSolid(n: int)
    ensures NoSpace(IntToString(n))
  {
    var digits := NatToString(if n < 0 then -n else n);
    assert forall j :: 0 <= j < |digits| ==> IsDigit(digits[j]);
    if n < 0 {
      var s := IntToString(n);
      forall j | 0 <= j < |s| ensures !IsSpace(s[j]) {
        if j > 0 {
          assert s[j] == digits[j - 1];
        }
      }
    }
  }
}
