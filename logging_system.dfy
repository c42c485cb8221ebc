/**
 * The bookkeeping parts of utils/logging_system.py: the database log
 * buffer, the error counter with its user-facing messages, and the
 * performance counters with the uptime text. Logging output, the database
 * and the clock are outside the model: a database write that fails, and the
 * current time, are parameters.
 */
module Logging {
  import opened Wrappers
  import opened Text

  // ---------------------------------------------------------------------------
  // DatabaseLogHandler

  /** What `emit` keeps of a log record; the traceback text is already
      formatted. `message` is the text `getMessage()` renders, and None when
      rendering raises (arguments that do not match the format, say). */
  datatype LogRecord = LogRecord(created: int, levelName: string, name: string, message: Option<string>,
                                 funcName: string, lineNo: int, excText: Option<string>)

  datatype LogEntry = LogEntry(timestamp: int, level: string, module_: string, message: string,
                               function_: string, line: int, exception: Option<string>)

  /** The entry `emit` builds, or None when the message cannot be rendered
      and `emit` falls through to `handleError`. */
  function EntryOf(r: LogRecord): (e: Option<LogEntry>)
    ensures e.Some? <==> r.message.Some?
    ensures e.Some? ==> e.value.message == r.message.value && e.value.level == r.levelName
                        && e.value.exception == r.excText
  {
    match r.message
    case None => None
    case Some(text) => Some(LogEntry(r.created, r.levelName, r.name, text, r.funcName, r.lineNo, r.excText))
  }

  const BufferSize := 100

  class DatabaseLogHandler {
    var buffer: seq<LogEntry>

    constructor ()
      ensures buffer == []
    {
      buffer := [];
    }

    /** `emit`: one entry appended per record whose message renders; the
        result says whether the buffer reached its size and a flush is
        scheduled. A record that cannot be rendered goes to `handleError`:
        nothing is buffered and no flush is scheduled. */
    method Emit(r: LogRecord) returns (flushScheduled: bool)
      modifies this
      ensures r.message.Some? ==> buffer == old(buffer) + [EntryOf(r).value]
      ensures r.message.None? ==> buffer == old(buffer)
      ensures flushScheduled <==> r.message.Some? && |buffer| >= BufferSize
    {
      var entry := EntryOf(r);
      if entry.None? {
        return false;
      }
      buffer := buffer + [entry.value];
      flushScheduled := |buffer| >= BufferSize;
    }

    /** `flush_to_database`. `dbAvailable` says whether a database object
        exists; `failAt` is the position of the first entry whose write
        raises, if any. The entries written come back in order. The buffer is
        cleared only when every write succeeded; a failed write leaves it
        whole, the entries already written included. */
    method FlushToDatabase(dbAvailable: bool, failAt: Option<nat>) returns (saved: seq<LogEntry>)
      modifies this
      ensures saved <= old(buffer)
      ensures old(buffer) == [] || !dbAvailable ==> saved == [] && buffer == old(buffer)
      ensures old(buffer) != [] && dbAvailable && failAt.Some? && failAt.value < |old(buffer)| ==>
                saved == old(buffer)[..failAt.value] && buffer == old(buffer)
      ensures old(buffer) != [] && dbAvailable && (failAt.None? || failAt.value >= |old(buffer)|) ==>
                saved == old(buffer) && buffer == []
    {
      saved := [];
      if buffer == [] || !dbAvailable {
        return;
      }
      var i := 0;
      while i < |buffer|
        invariant 0 <= i <= |buffer|
        invariant saved == buffer[..i]
        invariant failAt.Some? ==> i <= failAt.value
      {
        if failAt == Some(i) {
          return;
        }
        saved := saved + [buffer[i]];
        i := i + 1;
      }
      assert saved == buffer;
      buffer := [];
    }
  }

  // ---------------------------------------------------------------------------
  // ErrorHandler

  const RetryPlaceholder := "{retry_after:.1f}"

  const GenericMessage := "❌ An unexpected error occurred. Please try again or contact support if this persists."

  /** `_load_error_messages`: exception class name -> message. */
  const ErrorMessages: map<string, string> := map[
    "MissingPermissions" := "❌ I don't have the required permissions to perform this action.",
    "BotMissingPermissions" := "❌ I'm missing permissions. Please check my role permissions.",
    "CommandOnCooldown" := "⏰ This command is on cooldown. Try again in {retry_after:.1f} seconds.",
    "NoPrivateMessage" := "❌ This command cannot be used in private messages.",
    "NotOwner" := "❌ This command is restricted to bot owners only.",
    "CheckFailure" := "❌ You don't have permission to use this command.",
    "CommandInvokeError" := "❌ An error occurred while executing the command.",
    "ArgumentParsingError" := "❌ Invalid arguments provided. Please check the command usage.",
    "BadArgument" := "❌ Invalid argument provided. Please check the command usage.",
    "MissingRequiredArgument" := "❌ Missing required argument. Please check the command usage.",
    "TooManyArguments" := "❌ Too many arguments provided. Please check the command usage.",
    "UserInputError" := "❌ Invalid input provided. Please check your input and try again.",
    "NoVoiceChannel" := "❌ You need to be in a voice channel to use this command.",
    "AlreadyConnected" := "❌ I'm already connected to a voice channel.",
    "NotConnected" := "❌ I'm not connected to any voice channel.",
    "VoiceConnectionError" := "❌ Failed to connect to voice channel. Please try again.",
    "QueueEmpty" := "❌ The music queue is empty.",
    "QueueFull" := "❌ The music queue is full. Please wait for some tracks to finish.",
    "TrackNotFound" := "❌ No tracks found for your search query.",
    "PlaylistNotFound" := "❌ Playlist not found or is private.",
    "SpotifyError" := "❌ Spotify integration error. Please try again later.",
    "LyricsNotFound" := "❌ No lyrics found for this track.",
    "DatabaseError" := "❌ Database error occurred. Please contact support if this persists.",
    "APIError" := "❌ External service error. Please try again later.",
    "RateLimited" := "⏰ You're being rate limited. Please slow down and try again later."
  ]

  /** `message.format(retry_after=...)` for these templates: every
      placeholder is replaced by the rendered value. */
  function FillRetry(template: string, retryText: string): string {
    Join(Split(template, RetryPlaceholder), retryText)
  }

  /** A template without the placeholder is left as it is. */
  lemma FillWithoutPlaceholder(template: string, retryText: string)
    requires !Contains(template, RetryPlaceholder)
    ensures FillRetry(template, retryText) == template
  {
  }

  /** A template with one placeholder, and no other '{' before it, gets the
      value in its place. */
  lemma FillOnePlaceholder(pre: string, post: string, retryText: string)
    requires forall k :: 0 <= k < |pre| ==> pre[k] != '{'
    requires !Contains(post, RetryPlaceholder)
    ensures FillRetry(pre + RetryPlaceholder + post, retryText) == pre + retryText + post
  {
    var s := pre + RetryPlaceholder + post;
    assert s[|pre|..|pre| + |RetryPlaceholder|] == RetryPlaceholder;
    assert OccursAt(s, RetryPlaceholder, |pre|);
    var f := Find(s, RetryPlaceholder);
    assert f.Some?;
    assert forall j :: 0 <= j < |pre| ==> s[j] != RetryPlaceholder[0];
    assert forall j :: 0 <= j < |pre| && j + |RetryPlaceholder| <= |s| ==>
      s[j..j + |RetryPlaceholder|][0] == s[j];
    assert f == Some(|pre|);
    assert s[..|pre|] == pre;
    assert s[|pre| + |RetryPlaceholder|..] == post;
    assert Split(post, RetryPlaceholder) == [post];
    assert Split(s, RetryPlaceholder) == [pre, post];
    assert [pre, post][1..] == [post];
    assert Join([pre, post], retryText) == pre + retryText + Join([post], retryText);
  }

  /** `_get_user_friendly_message`: the table's message for a known class
      name, filled with `retry_after` when the error has one, and the generic
      text otherwise. */
  function FriendlyMessage(errorType: string, retryAfter: Option<string>): (m: string)
    ensures errorType !in ErrorMessages ==> m == GenericMessage
    ensures errorType in ErrorMessages && retryAfter.None? ==> m == ErrorMessages[errorType]
    ensures errorType in ErrorMessages && retryAfter.Some? ==> m == FillRetry(ErrorMessages[errorType], retryAfter.value)
  {
    if errorType in ErrorMessages then
      match retryAfter
      case None => ErrorMessages[errorType]
      case Some(t) => FillRetry(ErrorMessages[errorType], t)
    else GenericMessage
  }

  class ErrorHandler {
    var errorCounts: map<string, nat>

    constructor ()
      ensures errorCounts == map[]
    {
      errorCounts := map[];
    }

    function CountOf(errorType: string): nat
      reads this
    {
      if errorType in errorCounts then errorCounts[errorType] else 0
    }

    /** `handle_error` without the logging and the reply: the error id is the
        class name and the time stamp, the count of that class goes up by one
        and no other count changes. */
    method HandleError(errorType: string, stamp: string, retryAfter: Option<string>)
      returns (errorId: string, userMessage: string)
      modifies this
      ensures errorId == errorType + "_" + stamp
      ensures userMessage == FriendlyMessage(errorType, retryAfter)
      ensures errorCounts == old(errorCounts)[errorType := old(CountOf(errorType)) + 1]
      ensures forall t :: t != errorType ==> CountOf(t) == old(CountOf(t))
    {
      errorId := errorType + "_" + stamp;
      errorCounts := errorCounts[errorType := CountOf(errorType) + 1];
      userMessage := FriendlyMessage(errorType, retryAfter);
    }

    /** `get_error_stats`: a snapshot of the counts. */
    method GetErrorStats() returns (stats: map<string, nat>)
      ensures stats == errorCounts
      ensures forall t :: t in stats ==> stats[t] == CountOf(t)
    {
      stats := errorCounts;
    }
  }

  // ---------------------------------------------------------------------------
  // PerformanceMonitor

  /** The five counters the monitor keeps. */
  const MetricNames: set<string> :=
    {"commands_executed", "errors_occurred", "tracks_played", "guilds_joined", "guilds_left"}

  class PerformanceMonitor {
    var metrics: map<string, int>
    /** Start time, in whole seconds. */
    const startTime: int

    predicate Valid()
      reads this
    {
      metrics.Keys == MetricNames
    }

    constructor (now: int)
      ensures Valid() && startTime == now
      ensures forall m :: m in metrics ==> metrics[m] == 0
    {
      metrics := map m | m in MetricNames :: 0;
      startTime := now;
    }

    /** `increment_metric`: only a predefined counter changes, by `value`;
        an unknown name changes nothing. */
    method IncrementMetric(metric: string, value: int)
      requires Valid()
      modifies this
      ensures Valid()
      ensures metric in old(metrics) ==> metrics == old(metrics)[metric := old(metrics)[metric] + value]
      ensures metric !in old(metrics) ==> metrics == old(metrics)
    {
      if metric in metrics {
        metrics := metrics[metric := metrics[metric] + value];
      }
    }

    /** `get_uptime` at time `now`. */
    function UptimeAt(now: int): (r: string)
      reads this
      ensures |r| > 0 && r[|r| - 1] == 's'
      ensures 0 <= now - startTime < 60 ==> r == NatToString(now - startTime) + "s"
    {
      UptimeText(now - startTime)
    }
  }

  /** The days, hours, minutes and seconds of an elapsed time the way
      `timedelta` and two `divmod`s split it. */
  function UptimeParts(elapsed: int): (int, nat, nat, nat) {
    var days := elapsed / 86400;
    var daySeconds := elapsed % 86400;
    (days, daySeconds / 3600, daySeconds % 3600 / 60, daySeconds % 3600 % 60)
  }

  /** The parts recombine to the elapsed time, each below its unit. */
  lemma UptimePartsRecombine(elapsed: int)
    ensures var (d, h, m, s) := UptimeParts(elapsed);
            && h < 24 && m < 60 && s < 60
            && d * 86400 + h * 3600 + m * 60 + s == elapsed
  {
    var daySeconds := elapsed % 86400;
    var h := daySeconds / 3600;
    var rest := daySeconds % 3600;
    assert daySeconds == h * 3600 + rest;
    assert rest == rest / 60 * 60 + rest % 60;
    DivBelowStrict(daySeconds, 3600, 24);
  }

  /** `get_uptime`'s text: the largest non-zero unit first, down to seconds. */
  function UptimeText(elapsed: int): (r: string)
    ensures |r| > 0 && r[|r| - 1] == 's'
  {
    var (days, hours, minutes, seconds) := UptimeParts(elapsed);
    if days != 0 then
      IntToString(days) + "d " + NatToString(hours) + "h " + NatToString(minutes) + "m " + NatToString(seconds) + "s"
    else if hours != 0 then
      NatToString(hours) + "h " + NatToString(minutes) + "m " + NatToString(seconds) + "s"
    else if minutes != 0 then
      NatToString(minutes) + "m " + NatToString(seconds) + "s"
    else
      NatToString(seconds) + "s"
  }

  /** Under a minute, the text is just the seconds. */
  lemma UptimeUnderAMinute(elapsed: int)
    requires 0 <= elapsed < 60
    ensures UptimeText(elapsed) == NatToString(elapsed) + "s"
  {
  }

  /** Within the first day the days are left out and the hours lead. */
  lemma UptimeWithinADay(elapsed: int)
    requires 3600 <= elapsed < 86400
    ensures UptimeText(elapsed) ==
              NatToString(elapsed / 3600) + "h " + NatToString(elapsed % 3600 / 60) + "m "
              + NatToString(elapsed % 60) + "s"
  {
    var rest := elapsed % 3600;
    assert elapsed == elapsed / 3600 * 3600 + rest;
    ModUnique(elapsed, 60, elapsed / 3600 * 60 + rest / 60, rest % 60);
    DivAbove(elapsed, 3600, 1);
  }
}
