/**
 * The file logger: a logger asset that lazily opens a log file and appends
 * one line per log entry, optionally prefixed with a timestamp that is
 * computed at most once per rendered frame.
 */
module Loggers {
  import opened Wrappers
  import opened Types

  /** Remembers the timestamp text of the frame it was last computed in. */
  class TimestampCache {
    /** The cached text; `None` (null) until first computed. */
    var timestampCache: Option<string>
    var timestampCacheFrame: int

    constructor ()
      ensures timestampCache == None && timestampCacheFrame == 0
    {
      timestampCache := None;
      timestampCacheFrame := 0;
    }

    /**
     * `GetTimestamp`. `frameCount` is the engine's frame counter and `now`
     * the current time as the "[HH:mm:ss.fff] " format renders it. The text
     * is recomputed only when the frame changed, so every call leaves the
     * cache holding what it returned, for the frame it was called in: a
     * later call in the same frame returns the same text. The cached frame
     * starts at 0, so a first call in frame 0 returns the unset (null) cache.
     */
    method GetTimestamp(frameCount: int, now: string) returns (t: Option<string>)
      modifies this
      ensures timestampCacheFrame == frameCount && timestampCache == t
      ensures old(timestampCacheFrame) == frameCount ==> t == old(timestampCache)
      ensures old(timestampCacheFrame) != frameCount ==> t == Some(now)
    {
      if timestampCacheFrame != frameCount {
        timestampCache := Some(now);
        timestampCacheFrame := frameCount;
      }
      t := timestampCache;
    }
  }

  /**
   * One line of the log file: the timestamp, if any, followed by the text.
   * Writing a null timestamp writes nothing.
   */
  function Entry(stamp: Option<string>, text: string): (r: string)
    ensures stamp.None? ==> r == text
    ensures |r| == |stamp.GetOr("")| + |text|
    ensures stamp.Some? ==> r[..|stamp.value|] == stamp.value && r[|stamp.value|..] == text
  {
    stamp.GetOr("") + text
  }

  /** Appends log lines to the file it opened; after disposal, writes are dropped. */
  class FileLogHandler {
    const outputPath: string
    const timestamp: bool
    const timestampCache: TimestampCache?
    /** The contents of the file, line by line. */
    var lines: seq<string>
    var disposed: bool

    /** A timestamp cache exists exactly when timestamps are on. */
    ghost predicate Valid()
      reads this
    {
      timestamp <==> timestampCache != null
    }

    /** Opens the file for writing, not appending: a new handler starts with an empty file. */
    constructor (outputPath: string, timestamp: bool)
      ensures Valid()
      ensures this.outputPath == outputPath && this.timestamp == timestamp
      ensures lines == [] && !disposed
      ensures timestampCache != null ==> fresh(timestampCache) && timestampCache.timestampCacheFrame == 0
                                         && timestampCache.timestampCache == None
    {
      this.outputPath := outputPath;
      this.timestamp := timestamp;
      lines := [];
      disposed := false;
      if timestamp {
        timestampCache := new TimestampCache();
      } else {
        timestampCache := null;
      }
    }

    /** The timestamp an entry written now, in frame `frameCount`, starts with. */
    ghost function NextStamp(frameCount: int, now: string): Option<string>
      reads this, timestampCache
      requires Valid()
    {
      if !timestamp then None
      else if timestampCache.timestampCacheFrame != frameCount then Some(now)
      else timestampCache.timestampCache
    }

    method WriteEntry(text: string, frameCount: int, now: string)
      requires Valid() && !disposed
      modifies this`lines, timestampCache
      ensures lines == old(lines) + [Entry(old(NextStamp(frameCount, now)), text)]
      ensures timestamp ==> timestampCache.timestampCacheFrame == frameCount
                            && timestampCache.timestampCache == old(NextStamp(frameCount, now))
    {
      var stamp := None;
      if timestamp {
        stamp := timestampCache.GetTimestamp(frameCount, now);
      }
      lines := lines + [Entry(stamp, text)];
    }

    /** `LogFormat`, with the formatted message as `text`: one line, unless disposed. */
    method LogFormat(logType: LogType, text: string, frameCount: int, now: string)
      requires Valid()
      modifies this`lines, timestampCache
      ensures old(disposed) ==> lines == old(lines) && (timestampCache != null ==> unchanged(timestampCache))
      ensures !old(disposed) ==> lines == old(lines) + [Entry(old(NextStamp(frameCount, now)), text)]
      ensures !old(disposed) && timestamp ==> timestampCache.timestampCacheFrame == frameCount
                                              && timestampCache.timestampCache == old(NextStamp(frameCount, now))
    {
      if disposed {
        return;
      }
      WriteEntry(text, frameCount, now);
    }

    /** `LogException`, with the exception's text as `exceptionText`: one line, unless disposed. */
    method LogException(exceptionText: string, frameCount: int, now: string)
      requires Valid()
      modifies this`lines, timestampCache
      ensures old(disposed) ==> lines == old(lines) && (timestampCache != null ==> unchanged(timestampCache))
      ensures !old(disposed) ==> lines == old(lines) + [Entry(old(NextStamp(frameCount, now)), exceptionText)]
      ensures !old(disposed) && timestamp ==> timestampCache.timestampCacheFrame == frameCount
                                              && timestampCache.timestampCache == old(NextStamp(frameCount, now))
    {
      if disposed {
        return;
      }
      WriteEntry(exceptionText, frameCount, now);
    }

    /** Closes the file; what was written stays. */
    method Dispose()
      modifies this`disposed
      ensures disposed
    {
      disposed := true;
    }
  }

  /** `UnityEngine.Logger` over a handler, with the asset's filter. */
  class Logger {
    const handler: FileLogHandler
    const filterLogType: LogType

    constructor (handler: FileLogHandler, filterLogType: LogType)
      ensures this.handler == handler && this.filterLogType == filterLogType
    {
      this.handler := handler;
      this.filterLogType := filterLogType;
    }
  }

  class FileLoggerAsset {
    var outputPath: string
    var filterLogType: LogType
    var timestamp: bool
    var handler: FileLogHandler?
    var logger: Logger?

    constructor ()
      ensures outputPath == "autopilot.log" && filterLogType == Log && timestamp
      ensures handler == null && logger == null
    {
      outputPath := "autopilot.log";
      filterLogType := Log;
      timestamp := true;
      handler := null;
      logger := null;
    }

    /**
     * The `Logger` getter. `resolvedPath` is the output path after
     * resolution against `outputPath` and the command line (`None` for null).
     * A logger once built is returned as it is. With no path, there is no
     * logger and no handler is opened. Otherwise the previous handler, if
     * any, is disposed before a new handler and logger are installed.
     */
    method GetLogger(resolvedPath: Option<string>) returns (l: Logger?)
      modifies this`handler, this`logger, handler
      ensures old(logger) != null ==> l == old(logger) && logger == l && handler == old(handler)
      ensures old(logger) == null && resolvedPath.GetOr("") == "" ==>
                l == null && logger == null && handler == old(handler)
      ensures old(logger) != null || resolvedPath.GetOr("") == "" ==>
                old(handler) != null ==> unchanged(old(handler))
      ensures old(logger) == null && resolvedPath.GetOr("") != "" ==>
                && l != null && fresh(l) && logger == l
                && handler != null && fresh(handler) && l.handler == handler && l.filterLogType == filterLogType
                && handler.Valid() && handler.outputPath == resolvedPath.value && handler.timestamp == timestamp
                && handler.lines == [] && !handler.disposed
                && (handler.timestampCache != null ==>
                      fresh(handler.timestampCache) && handler.timestampCache.timestampCacheFrame == 0
                      && handler.timestampCache.timestampCache == None)
                && (old(handler) != null ==> old(handler).disposed && old(handler).lines == old(handler.lines))
    {
      if logger != null {
        return logger;
      }
      if resolvedPath.None? || resolvedPath.value == "" {
        return null;
      }
      if handler != null {
        handler.Dispose();
      }
      handler := new FileLogHandler(resolvedPath.value, timestamp);
      logger := new Logger(handler, filterLogType);
      l := logger;
    }
  }

  /**
   * Run on each launch: disposes every asset's handler and drops both its
   * handler and its logger, so the next `Logger` access opens a new file.
   */
  method ResetLoggers(assets: seq<FileLoggerAsset>)
    modifies set a | a in assets
    modifies set a | a in assets && a.handler != null :: a.handler
    ensures forall a :: a in assets ==> a.handler == null && a.logger == null
    ensures forall a :: a in assets ==>
              a.outputPath == old(a.outputPath) && a.filterLogType == old(a.filterLogType) && a.timestamp == old(a.timestamp)
    ensures forall a :: a in assets && old(a.handler) != null ==>
              old(a.handler).disposed && old(a.handler).lines == old(a.handler.lines)
  {
    var i := 0;
    while i < |assets|
      invariant 0 <= i <= |assets|
      invariant forall a :: a in assets[..i] ==> a.handler == null && a.logger == null
      invariant forall a :: a in assets ==>
                  a.outputPath == old(a.outputPath) && a.filterLogType == old(a.filterLogType) && a.timestamp == old(a.timestamp)
      invariant forall a :: a in assets[..i] && old(a.handler) != null ==> old(a.handler).disposed
      invariant forall a :: a in assets && old(a.handler) != null ==> old(a.handler).lines == old(a.handler.lines)
      invariant forall k :: i <= k < |assets| ==> assets[k].handler == old(assets[k].handler) || assets[k] in assets[..i]
    {
      var current := assets[i];
      if current.handler != null {
        current.handler.Dispose();
      }
      current.handler := null;
      current.logger := null;
      assert assets[..i + 1] == assets[..i] + [current];
      i := i + 1;
    }
    assert assets[..i] == assets;
  }
}
