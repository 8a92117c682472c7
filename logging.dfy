// The filter-then-handler logger (3.py).
//
// A handler's output (console, file, syslog) is represented by the handler
// being called: `Log` returns the handlers it called, in call order.  Which
// handlers raise on a given text is a parameter, since that depends on the
// world outside the program.

module Logging {
  import opened Wrappers

  /** `SimpleLogFilter(pattern)`, 3.py:20-25. */
  datatype LogFilter = SimpleLogFilter(pattern: string)

  /** The handlers of 3.py:44-77 that the model keeps. */
  datatype LogHandler = ConsoleHandler | FileHandler(filename: string) | SyslogHandler

  // ---------------------------------------------------------------------------
  // Substring test
  // ---------------------------------------------------------------------------

  /** `t` starts with `p`. */
  predicate StartsWith(p: string, t: string)
  {
    |p| <= |t| && t[..|p|] == p
  }

  /** `p in t` for strings, scanned left to right. */
  function Contains(p: string, t: string): (r: bool)
    decreases |t|
  {
    StartsWith(p, t) || (t != [] && Contains(p, t[1..]))
  }

  /** `p` occurs in `t` at offset `k`. */
  predicate OccursAt(p: string, t: string, k: int)
  {
    0 <= k <= |t| - |p| && t[k..k + |p|] == p
  }

  /** Reference definition: `p` occurs in `t` at some offset. */
  ghost predicate IsSubstring(p: string, t: string)
  {
    exists k :: OccursAt(p, t, k)
  }

  lemma {:induction false} ContainsIsSubstring(p: string, t: string)
    ensures Contains(p, t) <==> IsSubstring(p, t)
    decreases |t|
  {
    if StartsWith(p, t) {
      assert OccursAt(p, t, 0);
    } else if t == [] {
      assert forall k :: !OccursAt(p, t, k);
    } else {
      ContainsIsSubstring(p, t[1..]);
      if IsSubstring(p, t[1..]) {
        var k :| OccursAt(p, t[1..], k);
        assert t[k + 1..k + 1 + |p|] == t[1..][k..k + |p|];
        assert OccursAt(p, t, k + 1);
      }
      if IsSubstring(p, t) {
        var k :| OccursAt(p, t, k);
        assert k > 0;
        assert t[1..][k - 1..k - 1 + |p|] == t[k..k + |p|];
        assert OccursAt(p, t[1..], k - 1);
      }
    }
  }

  /** `SimpleLogFilter.match`: the pattern occurs in the text. */
  function Matches(f: LogFilter, text: string): (r: bool)
    ensures r <==> IsSubstring(f.pattern, text)
  {
    ContainsIsSubstring(f.pattern, text);
    Contains(f.pattern, text)
  }

  // ---------------------------------------------------------------------------
  // Dispatch rule
  // ---------------------------------------------------------------------------

  /** The number of filters before the first that rejects `text` (all of them when none does). */
  function FirstReject(filters: seq<LogFilter>, text: string): (k: nat)
    ensures k <= |filters|
    ensures forall i :: 0 <= i < k ==> Matches(filters[i], text)
    ensures k < |filters| ==> !Matches(filters[k], text)
  {
    if filters == [] then 0
    else if !Matches(filters[0], text) then 0
    else 1 + FirstReject(filters[1..], text)
  }

  /** Among indices `0..n`, the first in `raising`, or `n` when none is. */
  function FirstRaise(n: nat, raising: set<nat>): (k: nat)
    ensures k <= n
    ensures forall i :: 0 <= i < k ==> i !in raising
    ensures k < n ==> k in raising
  {
    if n == 0 then 0
    else
      var k := FirstRaise(n - 1, raising);
      if k < n - 1 then k else if n - 1 in raising then n - 1 else n
  }

  /** The text reaches the handlers exactly when every filter matches; with no filters it always does. */
  lemma AcceptedIff(filters: seq<LogFilter>, text: string)
    ensures FirstReject(filters, text) == |filters| <==> forall i :: 0 <= i < |filters| ==> Matches(filters[i], text)
  {
  }

  /** A handler is skipped only when one before it raised. */
  lemma {:induction false} NothingRaisedAllCalled(n: nat, raising: set<nat>)
    requires forall i :: 0 <= i < n ==> i !in raising
    ensures FirstRaise(n, raising) == n
  {
  }

  class Logger {
    const filters: seq<LogFilter>
    const handlers: seq<LogHandler>

    /** `__init__`: a missing (or empty) list becomes the empty list. */
    constructor (filters: Option<seq<LogFilter>>, handlers: Option<seq<LogHandler>>)
      ensures this.filters == if filters.Some? then filters.value else []
      ensures this.handlers == if handlers.Some? then handlers.value else []
    {
      this.filters := if filters.Some? && filters.value != [] then filters.value else [];
      this.handlers := if handlers.Some? && handlers.value != [] then handlers.value else [];
    }

    /**
     * `log`: the filters are consulted in order until the first that rejects;
     * if none rejects, the handlers are called in order until one raises.  The
     * exception is caught (`failed`) and never escapes.
     */
    method Log(text: string, raising: set<nat>) returns (consulted: nat, called: seq<LogHandler>, failed: bool)
      ensures var k := FirstReject(filters, text);
        consulted == if k < |filters| then k + 1 else k
      ensures FirstReject(filters, text) < |filters| ==> called == [] && !failed
      ensures FirstReject(filters, text) == |filters| ==>
        var k := FirstRaise(|handlers|, raising);
        && called == handlers[..if k < |handlers| then k + 1 else k]
        && (failed <==> k < |handlers|)
    {
      consulted, called, failed := 0, [], false;
      var i := 0;
      while i < |filters|
        invariant 0 <= i <= |filters| && consulted == i
        invariant forall j :: 0 <= j < i ==> Matches(filters[j], text)
      {
        consulted := consulted + 1;
        if !Matches(filters[i], text) {
          return;
        }
        i := i + 1;
      }
      var h := 0;
      while h < |handlers|
        invariant 0 <= h <= |handlers|
        invariant called == handlers[..h]
        invariant forall j :: 0 <= j < h ==> j !in raising
      {
        called := called + [handlers[h]];
        if h in raising {
          failed := true;
          return;
        }
        h := h + 1;
      }
    }
  }

  /** The filter of `errorLogger` (3.py:101) on two of the test messages of 3.py:122-128. */
  lemma ErrorFilterOnTestLogs()
    ensures Matches(SimpleLogFilter("ERROR"), "ERROR: Application is not responding")
    ensures !Matches(SimpleLogFilter("ERROR"), "INFO: Today is a good day")
  {
    assert OccursAt("ERROR", "ERROR: Application is not responding", 0);
    MissingFirstChar("ERROR", "INFO: Today is a good day");
  }

  /** A text without the pattern's first character does not contain the pattern. */
  lemma MissingFirstChar(p: string, t: string)
    requires p != [] && p[0] !in t
    ensures !IsSubstring(p, t)
  {
    forall k | 0 <= k <= |t| - |p| ensures !OccursAt(p, t, k) {
      assert t[k..k + |p|][0] == t[k];
    }
  }

  /**
   * `errorLogger` of 3.py:116: a text with "ERROR" in it reaches the console,
   * file and syslog handlers in that order; any other text reaches none.
   */
  method ErrorLoggerRoutes(text: string) returns (calls: seq<LogHandler>)
    ensures IsSubstring("ERROR", text) ==> calls == [ConsoleHandler, FileHandler("Log.log"), SyslogHandler]
    ensures !IsSubstring("ERROR", text) ==> calls == []
  {
    var handlers := [ConsoleHandler, FileHandler("Log.log"), SyslogHandler];
    var logger := new Logger(Some([SimpleLogFilter("ERROR")]), Some(handlers));
    NothingRaisedAllCalled(3, {});
    var consulted, failed;
    consulted, calls, failed := logger.Log(text, {});
  }

  /** With no filters, a raising second handler: the first two are called, the third is not, and `log` returns normally. */
  method RaisingHandlerScenario(text: string) returns (calls: seq<LogHandler>, failed: bool)
    ensures calls == [ConsoleHandler, FileHandler("Log.log")] && failed
  {
    var handlers := [ConsoleHandler, FileHandler("Log.log"), SyslogHandler];
    var logger := new Logger(None, Some(handlers));
    assert FirstRaise(3, {1}) == 1;
    var consulted;
    consulted, calls, failed := logger.Log(text, {1});
  }
}
