/**
 * The bot settings of config/config.py. The process environment is an input
 * map from variable names to values; `BotConfig()` reads every setting from
 * it once, with the defaults of the source, and fails with the name of the
 * first variable whose `int()` conversion raises ValueError. The one
 * `float()` conversion (CROSSFADE_DURATION) is not checked: its text is kept
 * as it is, so a value `float()` rejects still loads here.
 */
module Config {
  import opened Wrappers
  import opened Text

  type Env = map<string, string>

  /** `os.getenv(name, default)`. */
  function GetEnv(env: Env, name: string, default: string): string {
    if name in env then env[name] else default
  }

  /** `os.getenv(name)`: None when unset. */
  function GetEnvOpt(env: Env, name: string): Option<string> {
    if name in env then Some(env[name]) else None
  }

  /** `os.getenv(name, default).lower() == "true"`. */
  function EnvFlag(env: Env, name: string, default: string): bool {
    Lower(GetEnv(env, name, default)) == "true"
  }

  /** A flag reads the same whatever the case of its value. */
  lemma FlagIgnoresCase(env: Env, name: string, default: string)
    ensures EnvFlag(env, name, default) == EnvFlag(env[name := Lower(GetEnv(env, name, default))], name, default)
  {
    LowerIdempotent(GetEnv(env, name, default));
  }

  /** `int(os.getenv(name, default))`, None where int() raises. The default
      text of every integer setting is `str` of a number, so the default is
      given here by its value (see `EnvIntReadsDefaultText`). */
  function EnvInt(env: Env, name: string, default: int): Option<int> {
    if name in env then ParseInt(env[name]) else Some(default)
  }

  /** Reading the default's text with `int()` gives the default back, so
      `EnvInt` is `int(os.getenv(name, str(default)))`. */
  lemma EnvIntReadsDefaultText(env: Env, name: string, default: int)
    ensures EnvInt(env, name, default) == ParseInt(GetEnv(env, name, IntToString(default)))
  {
    ParseIntToString(default);
  }

  /** `int()` of every piece; None where one of them raises. */
  function ParseInts(pieces: seq<string>): (r: Option<seq<int>>)
    ensures r.Some? ==> |r.value| == |pieces| && forall k :: 0 <= k < |pieces| ==> ParseInt(pieces[k]) == Some(r.value[k])
    ensures r.None? ==> exists k :: 0 <= k < |pieces| && ParseInt(pieces[k]).None?
  {
    if pieces == [] then Some([])
    else
      match ParseInt(pieces[0])
      case None => None
      case Some(v) =>
        match ParseInts(pieces[1..])
        case None => None
        case Some(rest) => Some([v] + rest)
  }

  /** `list(map(int, os.getenv(name, "").split(",")))` when the variable is
      set and non-empty, else `[]`. */
  function EnvIntList(env: Env, name: string): (r: Option<seq<int>>)
    ensures (name !in env || env[name] == "") ==> r == Some([])
  {
    if name in env && env[name] != "" then ParseInts(Split(env[name], ",")) else Some([])
  }

  /** `str(i)` is a minus sign and digits, so it holds no comma or colon. */
  lemma IntToStringHasNo(i: int, c: char)
    requires c != '-' && !IsDigit(c)
    ensures !Contains(IntToString(i), [c])
  {
    var s := IntToString(i);
    forall k | 0 <= k < |s| ensures s[k] != c {
      if i < 0 {
        assert s == "-" + NatToString(-i);
        if k > 0 {
          assert s[k] == NatToString(-i)[k - 1];
        }
      }
    }
    NoCharNoContains(s, c);
  }

  /** A list written back as comma-separated integers reads back unchanged. */
  lemma IntListRoundTrip(env: Env, name: string, ids: seq<int>)
    requires |ids| >= 1
    ensures var text := Join(seq(|ids|, k requires 0 <= k < |ids| => IntToString(ids[k])), ",");
            EnvIntList(env[name := text], name) == Some(ids)
  {
    var pieces := seq(|ids|, k requires 0 <= k < |ids| => IntToString(ids[k]));
    var text := Join(pieces, ",");
    forall k | 0 <= k < |pieces| ensures !Contains(pieces[k], ",") && ParseInt(pieces[k]) == Some(ids[k]) {
      IntToStringHasNo(ids[k], ',');
      ParseIntToString(ids[k]);
    }
    SplitJoin(pieces, ",");
    assert text != "" by {
      assert |pieces[0]| >= 1;
      assert |text| >= |pieces[0]| by { JoinLength(pieces, ","); }
    }
    var r := ParseInts(pieces);
    assert r.Some?;
    assert r.value == ids;
  }

  /** The joined text is at least as long as its first piece. */
  lemma JoinLength(parts: seq<string>, sep: string)
    requires |parts| >= 1
    ensures |Join(parts, sep)| >= |parts[0]|
  {
  }

  /** The settings of `BotConfig`, grouped as the source lays them out. */
  datatype CoreSettings = CoreSettings(botPrefix: string, discordToken: Option<string>,
                                       applicationId: Option<int>, owners: seq<int>)
  datatype LavalinkSettings = LavalinkSettings(host: string, port: int, password: string, name: string, secure: bool)
  datatype MusicSettings = MusicSettings(defaultVolume: int, maxQueueSize: int, timeoutDuration: int,
                                         autoDisconnectEmpty: bool, autoDisconnectTime: int)
  datatype ApiKeys = ApiKeys(spotifyClientId: Option<string>, spotifyClientSecret: Option<string>,
                             geniusApiToken: Option<string>, lastfmApiKey: Option<string>)
  datatype DatabaseSettings = DatabaseSettings(url: string, poolSize: int)
  datatype WebSettings = WebSettings(enabled: bool, host: string, port: int, secretKey: string)
  datatype Features = Features(lyrics: bool, spotify: bool, playlists: bool, statistics: bool, radioMode: bool,
                               djFeatures: bool, advancedMusic: bool, voiceAndPlaylist: bool)
  datatype LoggingSettings = LoggingSettings(level: string, file: string, maxSize: int, backupCount: int)
  datatype PerformanceSettings = PerformanceSettings(cacheSize: int, preloadTracks: int, searchResultsLimit: int)
  datatype SecuritySettings = SecuritySettings(allowedGuilds: seq<int>, blockedUsers: seq<int>,
                                               rateLimitCommands: int, rateLimitWindow: int)
  /** `crossfadeDuration` keeps the text that `float()` would convert. */
  datatype AudioSettings = AudioSettings(quality: string, normalizeVolume: bool, crossfadeDuration: string)
  datatype Localization = Localization(defaultLanguage: string, timezone: string)

  datatype BotConfig = BotConfig(core: CoreSettings, lavalink: LavalinkSettings, music: MusicSettings,
                                 keys: ApiKeys, database: DatabaseSettings, web: WebSettings,
                                 features: Features, logging: LoggingSettings, performance: PerformanceSettings,
                                 security: SecuritySettings, audio: AudioSettings, locale: Localization)

  /** `int(application_id_str) if application_id_str else None`: the outer
      None is a ValueError, the inner one an unset or empty variable. */
  function ApplicationId(env: Env): Option<Option<int>> {
    match GetEnvOpt(env, "APPLICATION_ID")
    case None => Some(None)
    case Some(s) =>
      if s == "" then Some(None)
      else match ParseInt(s)
        case None => None
        case Some(v) => Some(Some(v))
  }

  function LoadCore(env: Env): (r: Result<CoreSettings, string>)
    ensures r.Ok? <==> ApplicationId(env).Some? && EnvIntList(env, "OWNERS").Some?
    ensures r.Ok? ==> r.value.owners == EnvIntList(env, "OWNERS").value
  {
    match ApplicationId(env) case None => Err("APPLICATION_ID") case Some(appId) =>
    match EnvIntList(env, "OWNERS") case None => Err("OWNERS") case Some(owners) =>
    Ok(CoreSettings(GetEnv(env, "BOT_PREFIX", "!"), GetEnvOpt(env, "DISCORD_TOKEN"), appId, owners))
  }

  function LoadLavalink(env: Env): (r: Result<LavalinkSettings, string>)
    ensures r.Ok? <==> EnvInt(env, "LAVALINK_PORT", 4499).Some?
    ensures r.Ok? ==> r.value.port == EnvInt(env, "LAVALINK_PORT", 4499).value
                      && r.value.secure == EnvFlag(env, "LAVALINK_SECURE", "false")
  {
    match EnvInt(env, "LAVALINK_PORT", 4499) case None => Err("LAVALINK_PORT") case Some(port) =>
    Ok(LavalinkSettings(GetEnv(env, "LAVALINK_HOST", "lavalink.pericsq.ro"), port,
                        GetEnv(env, "LAVALINK_PASSWORD", "plamea"), GetEnv(env, "LAVALINK_NAME", "musik-node"),
                        EnvFlag(env, "LAVALINK_SECURE", "false")))
  }

  function LoadMusic(env: Env): Result<MusicSettings, string> {
    match EnvInt(env, "DEFAULT_VOLUME", 100) case None => Err("DEFAULT_VOLUME") case Some(volume) =>
    match EnvInt(env, "MAX_QUEUE_SIZE", 500) case None => Err("MAX_QUEUE_SIZE") case Some(maxQueue) =>
    match EnvInt(env, "TIMEOUT_DURATION", 300) case None => Err("TIMEOUT_DURATION") case Some(timeout) =>
    var disconnectEmpty := EnvFlag(env, "AUTO_DISCONNECT_EMPTY", "true");
    match EnvInt(env, "AUTO_DISCONNECT_TIME", 180) case None => Err("AUTO_DISCONNECT_TIME") case Some(disconnectTime) =>
    Ok(MusicSettings(volume, maxQueue, timeout, disconnectEmpty, disconnectTime))
  }

  function LoadApiKeys(env: Env): ApiKeys {
    ApiKeys(GetEnvOpt(env, "SPOTIFY_CLIENT_ID"), GetEnvOpt(env, "SPOTIFY_CLIENT_SECRET"),
            GetEnvOpt(env, "GENIUS_API_TOKEN"), GetEnvOpt(env, "LASTFM_API_KEY"))
  }

  function LoadDatabase(env: Env): Result<DatabaseSettings, string> {
    match EnvInt(env, "DATABASE_POOL_SIZE", 10) case None => Err("DATABASE_POOL_SIZE") case Some(poolSize) =>
    Ok(DatabaseSettings(GetEnv(env, "DATABASE_URL", "sqlite:///musicbot.db"), poolSize))
  }

  function LoadWeb(env: Env): Result<WebSettings, string> {
    match EnvInt(env, "WEB_PORT", 8080) case None => Err("WEB_PORT") case Some(port) =>
    Ok(WebSettings(EnvFlag(env, "WEB_DASHBOARD_ENABLED", "true"), GetEnv(env, "WEB_HOST", "localhost"), port,
                   GetEnv(env, "WEB_SECRET_KEY", "your-secret-key-here")))
  }

  function LoadFeatures(env: Env): Features {
    Features(EnvFlag(env, "ENABLE_LYRICS", "true"), EnvFlag(env, "ENABLE_SPOTIFY", "true"),
             EnvFlag(env, "ENABLE_PLAYLISTS", "true"), EnvFlag(env, "ENABLE_STATISTICS", "true"),
             EnvFlag(env, "ENABLE_RADIO_MODE", "true"), EnvFlag(env, "ENABLE_DJ_FEATURES", "true"),
             EnvFlag(env, "ENABLE_ADVANCED_MUSIC", "false"), EnvFlag(env, "ENABLE_VOICE_AND_PLAYLIST", "false"))
  }

  function LoadLogging(env: Env): Result<LoggingSettings, string> {
    match EnvInt(env, "LOG_MAX_SIZE", 10485760) case None => Err("LOG_MAX_SIZE") case Some(maxSize) =>
    match EnvInt(env, "LOG_BACKUP_COUNT", 5) case None => Err("LOG_BACKUP_COUNT") case Some(backups) =>
    Ok(LoggingSettings(GetEnv(env, "LOG_LEVEL", "INFO"), GetEnv(env, "LOG_FILE", "musicbot.log"), maxSize, backups))
  }

  function LoadPerformance(env: Env): Result<PerformanceSettings, string> {
    match EnvInt(env, "CACHE_SIZE", 1000) case None => Err("CACHE_SIZE") case Some(cache) =>
    match EnvInt(env, "PRELOAD_TRACKS", 3) case None => Err("PRELOAD_TRACKS") case Some(preload) =>
    match EnvInt(env, "SEARCH_RESULTS_LIMIT", 10) case None => Err("SEARCH_RESULTS_LIMIT") case Some(limit) =>
    Ok(PerformanceSettings(cache, preload, limit))
  }

  function LoadSecurity(env: Env): (r: Result<SecuritySettings, string>)
    ensures r.Ok? ==> EnvIntList(env, "ALLOWED_GUILDS") == Some(r.value.allowedGuilds)
                      && EnvIntList(env, "BLOCKED_USERS") == Some(r.value.blockedUsers)
  {
    match EnvIntList(env, "ALLOWED_GUILDS") case None => Err("ALLOWED_GUILDS") case Some(allowed) =>
    match EnvIntList(env, "BLOCKED_USERS") case None => Err("BLOCKED_USERS") case Some(blocked) =>
    match EnvInt(env, "RATE_LIMIT_COMMANDS", 10) case None => Err("RATE_LIMIT_COMMANDS") case Some(commands) =>
    match EnvInt(env, "RATE_LIMIT_WINDOW", 60) case None => Err("RATE_LIMIT_WINDOW") case Some(window) =>
    Ok(SecuritySettings(allowed, blocked, commands, window))
  }

  function LoadAudio(env: Env): AudioSettings {
    AudioSettings(GetEnv(env, "AUDIO_QUALITY", "high"), EnvFlag(env, "NORMALIZE_VOLUME", "true"),
                  GetEnv(env, "CROSSFADE_DURATION", "3.0"))
  }

  /** `BotConfig()` reading `env`; the error names the first variable, in
      the order the settings are read, whose `int()` raises. */
  function LoadConfig(env: Env): (r: Result<BotConfig, string>)
    ensures r.Ok? <==> && LoadCore(env).Ok? && LoadLavalink(env).Ok? && LoadMusic(env).Ok?
                       && LoadDatabase(env).Ok? && LoadWeb(env).Ok? && LoadLogging(env).Ok?
                       && LoadPerformance(env).Ok? && LoadSecurity(env).Ok?
    ensures r.Ok? ==> && r.value.core == LoadCore(env).value && r.value.lavalink == LoadLavalink(env).value
                      && r.value.music == LoadMusic(env).value && r.value.database == LoadDatabase(env).value
                      && r.value.web == LoadWeb(env).value && r.value.logging == LoadLogging(env).value
                      && r.value.performance == LoadPerformance(env).value
                      && r.value.security == LoadSecurity(env).value
                      && r.value.keys == LoadApiKeys(env) && r.value.features == LoadFeatures(env)
                      && r.value.audio == LoadAudio(env)
                      && r.value.locale.defaultLanguage == GetEnv(env, "DEFAULT_LANGUAGE", "en")
                      && r.value.locale.timezone == GetEnv(env, "TIMEZONE", "UTC")
  {
    match LoadCore(env) case Err(e) => Err(e) case Ok(core) =>
    match LoadLavalink(env) case Err(e) => Err(e) case Ok(lavalink) =>
    match LoadMusic(env) case Err(e) => Err(e) case Ok(music) =>
    match LoadDatabase(env) case Err(e) => Err(e) case Ok(database) =>
    match LoadWeb(env) case Err(e) => Err(e) case Ok(web) =>
    match LoadLogging(env) case Err(e) => Err(e) case Ok(logging) =>
    match LoadPerformance(env) case Err(e) => Err(e) case Ok(performance) =>
    match LoadSecurity(env) case Err(e) => Err(e) case Ok(security) =>
    Ok(BotConfig(core, lavalink, music, LoadApiKeys(env), database, web, LoadFeatures(env), logging,
                 performance, security, LoadAudio(env),
                 Localization(GetEnv(env, "DEFAULT_LANGUAGE", "en"), GetEnv(env, "TIMEZONE", "UTC"))))
  }

  /** A loaded configuration holds exactly the owner, allow and block lists
      the environment spells out, and a malformed owner list stops loading. */
  lemma LoadedLists(env: Env)
    ensures LoadConfig(env).Ok? ==>
              && EnvIntList(env, "OWNERS") == Some(LoadConfig(env).value.core.owners)
              && EnvIntList(env, "ALLOWED_GUILDS") == Some(LoadConfig(env).value.security.allowedGuilds)
              && EnvIntList(env, "BLOCKED_USERS") == Some(LoadConfig(env).value.security.blockedUsers)
    ensures EnvIntList(env, "OWNERS").None? ==> LoadConfig(env) == Err("OWNERS") || LoadConfig(env) == Err("APPLICATION_ID")
  {
    var r := LoadConfig(env);
    if r.Ok? {
      assert LoadCore(env).Ok? && r.value.core == LoadCore(env).value;
      assert LoadSecurity(env).Ok? && r.value.security == LoadSecurity(env).value;
    }
  }

  /** With nothing set, loading succeeds with the source's defaults: no
      owners, every guild allowed, no one blocked, an insecure Lavalink
      connection to lavalink.pericsq.ro on port 4499. */
  lemma EmptyEnvironmentDefaults()
    ensures LoadConfig(map[]).Ok?
    ensures var c := LoadConfig(map[]).value;
            && c.core.owners == [] && c.security.allowedGuilds == [] && c.security.blockedUsers == []
            && c.lavalink.port == 4499 && !c.lavalink.secure
            && c.lavalink.host == "lavalink.pericsq.ro"
            && forall g :: IsGuildAllowed(c, g)
  {
    var env: Env := map[];
    assert ApplicationId(env) == Some(None);
    assert LoadCore(env).Ok? && LoadLavalink(env).Ok?;
    assert |Lower(GetEnv(env, "LAVALINK_SECURE", "false"))| == 5;
    assert LoadMusic(env).Ok? && LoadDatabase(env).Ok? && LoadWeb(env).Ok?;
    assert LoadLogging(env).Ok? && LoadPerformance(env).Ok? && LoadSecurity(env).Ok?;
  }

  /** `get_lavalink_uri`. */
  function LavalinkUri(c: BotConfig): (uri: string)
    ensures c.lavalink.secure ==> "https://" <= uri
    ensures !c.lavalink.secure ==> "http://" <= uri
  {
    (if c.lavalink.secure then "https" else "http") + "://" + c.lavalink.host + ":" + IntToString(c.lavalink.port)
  }

  /** The port reads back from the text after the URI's last ':'. */
  lemma LavalinkPortRoundTrip(c: BotConfig)
    ensures ParseInt(Last(Split(LavalinkUri(c), ":"))) == Some(c.lavalink.port)
  {
    var head := (if c.lavalink.secure then "https" else "http") + "://" + c.lavalink.host;
    assert LavalinkUri(c) == head + ":" + IntToString(c.lavalink.port);
    IntToStringHasNo(c.lavalink.port, ':');
    LastPieceAfter(head, ":", IntToString(c.lavalink.port));
    ParseIntToString(c.lavalink.port);
  }

  /** `is_owner`. */
  function IsOwner(c: BotConfig, user: int): (r: bool)
    ensures r <==> exists k :: 0 <= k < |c.core.owners| && c.core.owners[k] == user
  {
    user in c.core.owners
  }

  /** `is_guild_allowed`: an empty allow-list admits every guild. */
  function IsGuildAllowed(c: BotConfig, guild: int): (r: bool)
    ensures c.security.allowedGuilds == [] ==> r
    ensures c.security.allowedGuilds != [] ==>
              (r <==> exists k :: 0 <= k < |c.security.allowedGuilds| && c.security.allowedGuilds[k] == guild)
  {
    c.security.allowedGuilds == [] || guild in c.security.allowedGuilds
  }

  /** `is_user_blocked`. */
  function IsUserBlocked(c: BotConfig, user: int): (r: bool)
    ensures r <==> exists k :: 0 <= k < |c.security.blockedUsers| && c.security.blockedUsers[k] == user
  {
    user in c.security.blockedUsers
  }

  /** The values `to_dict` exposes. */
  datatype DictValue = Str(text: string) | Number(n: int) | Flag(b: bool) | Section(entries: seq<(string, DictValue)>)

  /** `to_dict`: the public settings only. */
  function ToDict(c: BotConfig): seq<(string, DictValue)> {
    [ ("bot_prefix", Str(c.core.botPrefix)),
      ("max_queue_size", Number(c.music.maxQueueSize)),
      ("default_volume", Number(c.music.defaultVolume)),
      ("timeout_duration", Number(c.music.timeoutDuration)),
      ("features", Section([
        ("lyrics", Flag(c.features.lyrics)),
        ("spotify", Flag(c.features.spotify)),
        ("playlists", Flag(c.features.playlists)),
        ("statistics", Flag(c.features.statistics)),
        ("radio_mode", Flag(c.features.radioMode)),
        ("dj_features", Flag(c.features.djFeatures))])),
      ("audio_quality", Str(c.audio.quality)),
      ("normalize_volume", Flag(c.audio.normalizeVolume)),
      ("crossfade_duration", Str(c.audio.crossfadeDuration)) ]
  }

  /** No credential reaches `to_dict`: changing the token, the passwords, the
      secret key, the API keys or the database URL leaves the dictionary as it was. */
  lemma ToDictHidesSecrets(c: BotConfig, token: Option<string>, lavalinkPassword: string, secretKey: string,
                           keys: ApiKeys, databaseUrl: string)
    ensures ToDict(c.(core := c.core.(discordToken := token),
                      lavalink := c.lavalink.(password := lavalinkPassword),
                      web := c.web.(secretKey := secretKey),
                      keys := keys,
                      database := c.database.(url := databaseUrl)))
            == ToDict(c)
  {
  }
}
