/** The fixed-window login limiter, and how many attempts it lets through in any interval. */
module LoginRateLimiter {
  import opened Common

  datatype Window = Window(count: nat, startedAt: int)

  type Attempts = map<string, Window>

  datatype Config = Config(maxAttempts: int, windowMs: int)

  predicate Elapsed(c: Config, w: Window, now: int) {
    now - w.startedAt >= c.windowMs
  }

  predicate Allows(c: Config, t: Attempts, key: string, now: int) {
    key in t && !Elapsed(c, t[key], now) ==> t[key].count < c.maxAttempts
  }

  /** The table after a check that passed: an elapsed window is dropped. */
  function Checked(c: Config, t: Attempts, key: string, now: int): Attempts {
    if key in t && Elapsed(c, t[key], now) then t - {key} else t
  }

  function Recorded(c: Config, t: Attempts, key: string, now: int): Attempts {
    if key !in t || Elapsed(c, t[key], now) then t[key := Window(1, now)]
    else t[key := Window(t[key].count + 1, t[key].startedAt)]
  }

  class Limiter {
    const config: Config
    var attempts: Attempts

    constructor (config: Config)
      ensures this.config == config && attempts == map[]
    {
      this.config := config;
      attempts := map[];
    }

    /** Returns how long to wait when the key is blocked; `later` is the second clock reading of that branch. */
    method AssertAllowed(key: string, now: int, later: int) returns (retryAfterMs: Option<int>)
      modifies this
      ensures retryAfterMs.None? <==> Allows(config, old(attempts), key, now)
      ensures attempts == Checked(config, old(attempts), key, now)
      ensures retryAfterMs.Some? ==> later + retryAfterMs.value == old(attempts)[key].startedAt + config.windowMs
    {
      if key !in attempts {
        return None;
      }
      var state := attempts[key];
      if now - state.startedAt >= config.windowMs {
        attempts := attempts - {key};
        return None;
      }
      if state.count >= config.maxAttempts {
        return Some(config.windowMs - (later - state.startedAt));
      }
      return None;
    }

    method RecordAttempt(key: string, now: int)
      modifies this
      ensures attempts == Recorded(config, old(attempts), key, now)
      ensures key in attempts && attempts[key].count >= 1
      ensures config.windowMs > 0 ==> !Elapsed(config, attempts[key], now)
      ensures forall k :: k != key ==> (k in attempts <==> k in old(attempts)) && (k in attempts ==> attempts[k] == old(attempts)[k])
    {
      if key !in attempts || now - attempts[key].startedAt >= config.windowMs {
        attempts := attempts[key := Window(1, now)];
        return;
      }
      attempts := attempts[key := Window(attempts[key].count + 1, attempts[key].startedAt)];
    }
  }

  // --------------------------------------------------------------------- runs

  /** A login: check at one clock reading, record at the next. */
  datatype Login = Login(key: string, checkedAt: int, recordedAt: int)

  /** An attempt that was let through, and the window it was counted in. */
  datatype Entry = Entry(key: string, at: int, window: int)

  datatype State = State(table: Attempts, log: seq<Entry>)

  const INITIAL := State(map[], [])

  function Step(c: Config, s: State, l: Login): State {
    if !Allows(c, s.table, l.key, l.checkedAt) then s
    else
      var table := Recorded(c, Checked(c, s.table, l.key, l.checkedAt), l.key, l.recordedAt);
      State(table, s.log + [Entry(l.key, l.recordedAt, table[l.key].startedAt)])
  }

  function Run(c: Config, s: State, logins: seq<Login>): State {
    if logins == [] then s else Step(c, Run(c, s, logins[..|logins| - 1]), logins[|logins| - 1])
  }

  /** The clock never goes back, within a login or between two. */
  ghost predicate InOrder(logins: seq<Login>) {
    && (forall i :: 0 <= i < |logins| ==> logins[i].checkedAt <= logins[i].recordedAt)
    && (forall i, j :: 0 <= i < j < |logins| ==> logins[i].recordedAt <= logins[j].checkedAt)
  }

  /** The attempts counted in one window of one key. */
  ghost function InWindow(log: seq<Entry>, key: string, window: int): set<nat> {
    set i: nat | i < |log| && log[i].key == key && log[i].window == window
  }

  /** The attempts of one key in the half-open interval of one window length from `a`. */
  ghost function InInterval(c: Config, log: seq<Entry>, key: string, a: int): set<nat> {
    set i: nat | i < |log| && log[i].key == key && a <= log[i].at < a + c.windowMs
  }

  /** A window opens with an attempt of its own. */
  ghost predicate Opened(log: seq<Entry>, key: string, window: int) {
    exists j :: 0 <= j < |log| && log[j] == Entry(key, window, window)
  }

  ghost predicate AllOpened(log: seq<Entry>) {
    forall i :: 0 <= i < |log| ==> OpenedAt(log, i)
  }

  ghost predicate OpenedAt(log: seq<Entry>, i: nat)
    requires i < |log|
  {
    Opened(log, log[i].key, log[i].window)
  }

  ghost predicate LogOk(c: Config, log: seq<Entry>) {
    && (forall i :: 0 <= i < |log| ==> log[i].window <= log[i].at < log[i].window + c.windowMs)
    && (forall i, j :: 0 <= i < |log| && 0 <= j < |log| && log[i].key == log[j].key && log[i].window < log[j].window ==>
                         log[i].window + c.windowMs <= log[j].window)
    && (forall key, w :: |InWindow(log, key, w)| <= c.maxAttempts)
  }

  /** The table's window of a key is its latest, and its count is what the log shows. */
  ghost predicate KeyOk(s: State, key: string, now: int) {
    if key in s.table then
      && s.table[key].startedAt <= now
      && 1 <= s.table[key].count == |InWindow(s.log, key, s.table[key].startedAt)|
      && forall i :: 0 <= i < |s.log| && s.log[i].key == key ==> s.log[i].window <= s.table[key].startedAt
    else forall i :: 0 <= i < |s.log| ==> s.log[i].key != key
  }

  ghost predicate TableOk(s: State, now: int) {
    forall key :: KeyOk(s, key, now)
  }

  lemma InWindowAppend(log: seq<Entry>, e: Entry, key: string, w: int)
    ensures InWindow(log + [e], key, w) == InWindow(log, key, w) + if e.key == key && e.window == w then {|log|} else {}
    ensures |InWindow(log + [e], key, w)| == |InWindow(log, key, w)| + if e.key == key && e.window == w then 1 else 0
  {
    assert InWindow(log + [e], key, w) == InWindow(log, key, w) + if e.key == key && e.window == w then {|log|} else {};
  }

  /** The window that an allowed login is counted in: the key's current one, or a new one. */
  function WindowFor(c: Config, t: Attempts, l: Login): int {
    if l.key !in t || Elapsed(c, t[l.key], l.recordedAt) then l.recordedAt else t[l.key].startedAt
  }

  lemma AllowedStep(c: Config, s: State, l: Login)
    requires l.checkedAt <= l.recordedAt && Allows(c, s.table, l.key, l.checkedAt)
    ensures var w := WindowFor(c, s.table, l);
            var count := if l.key in s.table && w == s.table[l.key].startedAt && !Elapsed(c, s.table[l.key], l.recordedAt)
                         then s.table[l.key].count else 0;
            Step(c, s, l) == State(s.table[l.key := Window(count + 1, w)], s.log + [Entry(l.key, l.recordedAt, w)])
  {
    assert (s.table - {l.key})[l.key := Window(1, l.recordedAt)] == s.table[l.key := Window(1, l.recordedAt)];
  }

  /** That window has room, and is a full length after every earlier window of the key. */
  lemma WindowHasRoom(c: Config, s: State, l: Login)
    requires c.maxAttempts >= 1 && c.windowMs > 0 && l.checkedAt <= l.recordedAt
    requires LogOk(c, s.log) && KeyOk(s, l.key, l.checkedAt) && Allows(c, s.table, l.key, l.checkedAt)
    ensures var w := WindowFor(c, s.table, l);
            && w <= l.recordedAt < w + c.windowMs
            && |InWindow(s.log, l.key, w)| < c.maxAttempts
            && (l.key in s.table && !Elapsed(c, s.table[l.key], l.recordedAt) ==> |InWindow(s.log, l.key, w)| == s.table[l.key].count)
            && (l.key !in s.table || Elapsed(c, s.table[l.key], l.recordedAt) ==> InWindow(s.log, l.key, w) == {})
            && (forall i :: 0 <= i < |s.log| && s.log[i].key == l.key ==>
                              s.log[i].window == w || s.log[i].window + c.windowMs <= w)
  {
    var w := WindowFor(c, s.table, l);
    if l.key in s.table && !Elapsed(c, s.table[l.key], l.recordedAt) {
      var j :| j in InWindow(s.log, l.key, w);
      assert s.log[j].window == w;
    } else {
      assert InWindow(s.log, l.key, w) == {};
    }
  }

  /** Adding an entry to a window with room keeps the log in order. */
  lemma LogGrows(c: Config, log: seq<Entry>, e: Entry)
    requires LogOk(c, log) && e.window <= e.at < e.window + c.windowMs && |InWindow(log, e.key, e.window)| < c.maxAttempts
    requires forall i :: 0 <= i < |log| && log[i].key == e.key ==>
               log[i].window == e.window || log[i].window + c.windowMs <= e.window
    requires c.windowMs > 0
    ensures LogOk(c, log + [e])
  {
    forall key, w
      ensures |InWindow(log + [e], key, w)| <= c.maxAttempts
    {
      InWindowAppend(log, e, key, w);
    }
  }

  /** An entry that opens its window, or joins an opened one, leaves every window opened. */
  lemma OpenedGrows(log: seq<Entry>, e: Entry)
    requires AllOpened(log) && (e.at == e.window || Opened(log, e.key, e.window))
    ensures AllOpened(log + [e])
  {
    var log' := log + [e];
    forall i | 0 <= i < |log'|
      ensures OpenedAt(log', i)
    {
      var x := log'[i];
      if i == |log| && x.at == x.window {
        assert log'[i] == Entry(x.key, x.window, x.window);
      } else {
        assert i < |log| ==> OpenedAt(log, i);
        var j :| 0 <= j < |log| && log[j] == Entry(x.key, x.window, x.window);
        assert log'[j] == log[j];
      }
    }
  }

  lemma StepOpened(c: Config, s: State, l: Login)
    requires l.checkedAt <= l.recordedAt && AllOpened(s.log) && KeyOk(s, l.key, l.checkedAt)
    ensures AllOpened(Step(c, s, l).log)
  {
    if Allows(c, s.table, l.key, l.checkedAt) {
      AllowedStep(c, s, l);
      var w := WindowFor(c, s.table, l);
      if w != l.recordedAt {
        var j :| j in InWindow(s.log, l.key, w);
        assert OpenedAt(s.log, j);
      }
      OpenedGrows(s.log, Entry(l.key, l.recordedAt, w));
    }
  }

  lemma {:induction false} RunOpened(c: Config, logins: seq<Login>)
    requires c.maxAttempts >= 1 && c.windowMs > 0 && InOrder(logins)
    ensures AllOpened(Run(c, INITIAL, logins).log)
  {
    if logins != [] {
      var init, l := logins[..|logins| - 1], logins[|logins| - 1];
      RunOpened(c, init);
      RunOk(c, init, l.checkedAt);
      assert KeyOk(Run(c, INITIAL, init), l.key, l.checkedAt);
      StepOpened(c, Run(c, INITIAL, init), l);
    }
  }

  lemma TableLater(s: State, now: int, later: int)
    requires TableOk(s, now) && now <= later
    ensures TableOk(s, later)
  {
    forall key
      ensures KeyOk(s, key, later)
    {
      assert KeyOk(s, key, now);
    }
  }

  /** Counting one more attempt in a key's latest window concerns that key alone. */
  lemma TableGrows(s: State, e: Entry, now: int)
    requires TableOk(s, now) && now <= e.at && e.window <= e.at
    requires forall i :: 0 <= i < |s.log| && s.log[i].key == e.key ==> s.log[i].window <= e.window
    ensures TableOk(State(s.table[e.key := Window(|InWindow(s.log, e.key, e.window)| + 1, e.window)], s.log + [e]), e.at)
  {
    var s' := State(s.table[e.key := Window(|InWindow(s.log, e.key, e.window)| + 1, e.window)], s.log + [e]);
    forall key
      ensures KeyOk(s', key, e.at)
    {
      assert KeyOk(s, key, now);
      if key == e.key {
        InWindowAppend(s.log, e, key, e.window);
      } else if key in s.table {
        InWindowAppend(s.log, e, key, s.table[key].startedAt);
      }
    }
  }

  lemma StepOk(c: Config, s: State, l: Login)
    requires c.maxAttempts >= 1 && c.windowMs > 0 && l.checkedAt <= l.recordedAt
    requires LogOk(c, s.log) && TableOk(s, l.checkedAt)
    ensures LogOk(c, Step(c, s, l).log) && TableOk(Step(c, s, l), l.recordedAt)
  {
    if Allows(c, s.table, l.key, l.checkedAt) {
      var e := Entry(l.key, l.recordedAt, WindowFor(c, s.table, l));
      assert KeyOk(s, l.key, l.checkedAt);
      AllowedStep(c, s, l);
      WindowHasRoom(c, s, l);
      LogGrows(c, s.log, e);
      TableGrows(s, e, l.checkedAt);
    } else {
      TableLater(s, l.checkedAt, l.recordedAt);
    }
  }

  lemma {:induction false} RunOk(c: Config, logins: seq<Login>, now: int)
    requires c.maxAttempts >= 1 && c.windowMs > 0 && InOrder(logins)
    requires forall i :: 0 <= i < |logins| ==> logins[i].recordedAt <= now
    ensures LogOk(c, Run(c, INITIAL, logins).log) && TableOk(Run(c, INITIAL, logins), now)
  {
    if logins == [] {
      assert forall key, w :: InWindow([], key, w) == {};
      assert forall key :: KeyOk(INITIAL, key, now);
    } else {
      var l := logins[|logins| - 1];
      RunOk(c, logins[..|logins| - 1], l.checkedAt);
      StepOk(c, Run(c, INITIAL, logins[..|logins| - 1]), l);
      TableLater(Run(c, INITIAL, logins), l.recordedAt, now);
    }
  }

  // ------------------------------------------------------------------ results

  /** A window counts at most `maxAttempts` allowed attempts of its key. */
  lemma WindowBound(c: Config, logins: seq<Login>, key: string, window: int)
    requires c.maxAttempts >= 1 && c.windowMs > 0 && InOrder(logins)
    ensures |InWindow(Run(c, INITIAL, logins).log, key, window)| <= c.maxAttempts
  {
    var now := if logins == [] then 0 else logins[|logins| - 1].recordedAt;
    RunOk(c, logins, now);
  }

  /** No interval of one window length holds attempts of three different windows. */
  lemma AtMostTwoWindows(c: Config, log: seq<Entry>, key: string, a: int, i: nat, j: nat, k: nat)
    requires LogOk(c, log)
    requires i in InInterval(c, log, key, a) && j in InInterval(c, log, key, a) && k in InInterval(c, log, key, a)
    ensures log[i].window == log[j].window || log[i].window == log[k].window || log[j].window == log[k].window
  {
  }

  /** An interval that reaches into a second window misses the attempt that opened the first. */
  lemma TwoWindows(c: Config, log: seq<Entry>, key: string, a: int, i: nat, j: nat)
    requires LogOk(c, log) && AllOpened(log) && i in InInterval(c, log, key, a) && j in InInterval(c, log, key, a)
    requires log[i].window < log[j].window
    ensures |InInterval(c, log, key, a)| <= 2 * c.maxAttempts - 1
  {
    var inside := InInterval(c, log, key, a);
    var first, second := InWindow(log, key, log[i].window), InWindow(log, key, log[j].window);
    var o := OpeningOutside(c, log, key, a, i, j);
    assert inside <= (first - {o}) + second by {
      forall k | k in inside
        ensures k in (first - {o}) + second
      {
        AtMostTwoWindows(c, log, key, a, i, j, k);
      }
    }
    UnionSize(inside, first, second, o);
  }

  lemma OpeningOutside(c: Config, log: seq<Entry>, key: string, a: int, i: nat, j: nat) returns (o: nat)
    requires LogOk(c, log) && AllOpened(log) && i in InInterval(c, log, key, a) && j in InInterval(c, log, key, a)
    requires log[i].window < log[j].window
    ensures o in InWindow(log, key, log[i].window) && o !in InInterval(c, log, key, a)
  {
    assert OpenedAt(log, i);
    o :| o < |log| && log[o] == Entry(key, log[i].window, log[i].window);
    assert log[o].at < a;
  }

  lemma UnionSize(inside: set<nat>, first: set<nat>, second: set<nat>, o: nat)
    requires o in first && inside <= (first - {o}) + second
    ensures |inside| <= |first| + |second| - 1
  {
    SubsetSize(inside, (first - {o}) + second);
  }

  /** Every half-open interval of one window length holds at most 2·maxAttempts − 1 allowed attempts per key. */
  lemma IntervalBound(c: Config, logins: seq<Login>, key: string, a: int)
    requires c.maxAttempts >= 1 && InOrder(logins)
    ensures |InInterval(c, Run(c, INITIAL, logins).log, key, a)| <= 2 * c.maxAttempts - 1
  {
    var log := Run(c, INITIAL, logins).log;
    var inside := InInterval(c, log, key, a);
    if c.windowMs <= 0 {
      assert inside == {};
    } else {
      var now := if logins == [] then 0 else logins[|logins| - 1].recordedAt;
      RunOk(c, logins, now);
      RunOpened(c, logins);
      if i, j :| i in inside && j in inside && log[i].window < log[j].window {
        TwoWindows(c, log, key, a, i, j);
      } else if i :| i in inside {
        SubsetSize(inside, InWindow(log, key, log[i].window));
      }
    }
  }

  /**
   * A blocked key stays blocked, with its window untouched, for exactly the rest of that
   * window, whatever else is tried meanwhile; then it is allowed again.
   */
  lemma {:induction false} BlockedUntilWindowEnds(c: Config, s: State, logins: seq<Login>, key: string, now: int)
    requires key in s.table && s.table[key].count >= c.maxAttempts
    requires forall i :: 0 <= i < |logins| && logins[i].key == key ==>
               logins[i].checkedAt < s.table[key].startedAt + c.windowMs
    ensures var s' := Run(c, s, logins);
            && key in s'.table && s'.table[key] == s.table[key]
            && (Allows(c, s'.table, key, now) <==> now >= s.table[key].startedAt + c.windowMs)
  {
    if logins != [] {
      BlockedUntilWindowEnds(c, s, logins[..|logins| - 1], key, now);
    }
  }
}
