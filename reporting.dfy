/**
 * The error-reporting hook: the static `ProviderBase.sendErrorToSentry` slot
 * and the never-throwing wrapper `ProviderBase.Sentry` that every component
 * reports through.
 */
module Reporting {
  datatype Severity = Fatal | Error | Warning | Log | Info | Debug

  /** What one call of the hook receives: the error's message, the tags and the level. */
  datatype Report = Report(message: string, tags: map<string, string>, level: Severity)

  /** The single tag every report carries, naming the component that raised it. */
  function Tags(origin: string): (t: map<string, string>)
    ensures t.Keys == {"Veera-Middleware"} && t["Veera-Middleware"] == origin
  {
    map["Veera-Middleware" := origin]
  }

  /**
   * The static slot shared by every provider and cache manager. `sink` says
   * whether a reporter function is installed; `log` is what it has been handed.
   */
  class Reporter {
    var sink: bool
    ghost var log: seq<Report>

    constructor ()
      ensures !sink && log == []
    {
      sink := false;
      log := [];
    }

    /** The assignment `ProviderBase.sendErrorToSentry = ...` of a provider constructor. */
    method Install(installed: bool)
      modifies this`sink
      ensures sink == installed
    {
      sink := installed;
    }

    /** The reports of `rs` that reach the hook: all of them, or none when no hook is installed. */
    ghost function Delivered(rs: seq<Report>): (d: seq<Report>)
      reads this`sink
      ensures sink ==> d == rs
      ensures !sink ==> d == []
    {
      if sink then rs else []
    }

    /**
     * `ProviderBase.Sentry(err, tags, level)`: hand one report to the hook if
     * one is installed. An exception raised by the hook is caught and only
     * written to the console, so the caller never sees it; nothing else changes.
     */
    method Sentry(message: string, tags: map<string, string>, level: Severity)
      modifies this`log
      ensures log == old(log) + Delivered([Report(message, tags, level)])
    {
      if sink {
        log := log + [Report(message, tags, level)];
      }
    }
  }

  /** Two stretches of reports delivered one after the other. */
  lemma DeliveredThen(r: Reporter, log0: seq<Report>, first: seq<Report>, log1: seq<Report>,
                      second: seq<Report>, log2: seq<Report>)
    requires log1 == log0 + r.Delivered(first) && log2 == log1 + r.Delivered(second)
    ensures log2 == log0 + r.Delivered(first + second)
  {
  }
}
