/** A run of logins that reaches the limiter's bound, for every limit and window. */
module LoginBurst {
  import opened LoginRateLimiter

  /** The same login, `n` times. */
  function Repeat(l: Login, n: nat): seq<Login> {
    if n == 0 then [] else Repeat(l, n - 1) + [l]
  }

  function Copies(e: Entry, n: nat): seq<Entry> {
    if n == 0 then [] else Copies(e, n - 1) + [e]
  }

  lemma {:induction false} RunAppend(c: Config, s: State, a: seq<Login>, b: seq<Login>)
    ensures Run(c, s, a + b) == Run(c, Run(c, s, a), b)
  {
    if b == [] {
      assert a + b == a;
    } else {
      assert (a + b)[..|a + b| - 1] == a + b[..|b| - 1];
      RunAppend(c, s, a, b[..|b| - 1]);
    }
  }

  lemma RunLast(c: Config, s: State, a: seq<Login>, l: Login)
    ensures Run(c, s, a + [l]) == Step(c, Run(c, s, a), l)
  {
    assert (a + [l])[..|a|] == a;
  }

  /** A key's window is open at this instant, with room for `n` more attempts. */
  predicate HasRoom(c: Config, s: State, key: string, at: int, n: nat) {
    && key in s.table && s.table[key].startedAt <= at < s.table[key].startedAt + c.windowMs
    && s.table[key].count + n <= c.maxAttempts
  }

  /** The state after `n` more attempts in that window. */
  function After(s: State, key: string, at: int, n: nat): State
    requires key in s.table
  {
    State(s.table[key := Window(s.table[key].count + n, s.table[key].startedAt)],
          s.log + Copies(Entry(key, at, s.table[key].startedAt), n))
  }

  lemma StepInside(c: Config, s: State, key: string, at: int, n: nat)
    requires HasRoom(c, s, key, at, n + 1)
    ensures Step(c, After(s, key, at, n), Login(key, at, at)) == After(s, key, at, n + 1)
  {
    var e := Entry(key, at, s.table[key].startedAt);
    assert s.log + Copies(e, n) + [e] == s.log + Copies(e, n + 1);
    var t := After(s, key, at, n).table;
    assert Checked(c, t, key, at) == t;
    assert t[key := Window(s.table[key].count + n + 1, s.table[key].startedAt)] == After(s, key, at, n + 1).table;
  }

  /** Attempts at one instant inside an open window with room are all let through. */
  lemma {:induction false} RunRepeat(c: Config, s: State, key: string, at: int, n: nat)
    requires HasRoom(c, s, key, at, n)
    ensures Run(c, s, Repeat(Login(key, at, at), n)) == After(s, key, at, n)
  {
    if n == 0 {
      assert s.table[key := s.table[key]] == s.table && s.log + [] == s.log;
    } else {
      RunRepeat(c, s, key, at, n - 1);
      RunLast(c, s, Repeat(Login(key, at, at), n - 1), Login(key, at, at));
      StepInside(c, s, key, at, n - 1);
    }
  }

  /** One attempt to open a window, the others at its end, and a full window right after it. */
  function Burst(c: Config, key: string): seq<Login>
    requires c.maxAttempts >= 1
  {
    var w, n := c.windowMs, c.maxAttempts - 1;
    [Login(key, 0, 0)] + Repeat(Login(key, w - 1, w - 1), n) + [Login(key, w, w)] + Repeat(Login(key, w, w), n)
  }

  function BurstLog(c: Config, key: string): seq<Entry>
    requires c.maxAttempts >= 1
  {
    var w, n := c.windowMs, c.maxAttempts - 1;
    [Entry(key, 0, 0)] + Copies(Entry(key, w - 1, 0), n) + [Entry(key, w, w)] + Copies(Entry(key, w, w), n)
  }

  lemma BurstRuns(c: Config, key: string)
    requires c.maxAttempts >= 1 && c.windowMs >= 2
    ensures Run(c, INITIAL, Burst(c, key)).log == BurstLog(c, key)
  {
    var w, n := c.windowMs, c.maxAttempts - 1;
    var first, rest := [Login(key, 0, 0)], Repeat(Login(key, w - 1, w - 1), n);
    var s1 := State(map[key := Window(1, 0)], [Entry(key, 0, 0)]);
    assert Run(c, INITIAL, first) == s1 by {
      RunLast(c, INITIAL, [], Login(key, 0, 0));
      assert [] + first == first;
    }
    RunAppend(c, INITIAL, first, rest);
    RunRepeat(c, s1, key, w - 1, n);
    var s2 := After(s1, key, w - 1, n);
    RunLast(c, INITIAL, first + rest, Login(key, w, w));
    var s3 := Step(c, s2, Login(key, w, w));
    assert s3.table[key] == Window(1, w) && s3.log == s2.log + [Entry(key, w, w)];
    RunAppend(c, INITIAL, first + rest + [Login(key, w, w)], Repeat(Login(key, w, w), n));
    RunRepeat(c, s3, key, w, n);
  }

  lemma IntervalAppend(c: Config, log: seq<Entry>, e: Entry, key: string, a: int)
    ensures |InInterval(c, log + [e], key, a)| ==
            |InInterval(c, log, key, a)| + if e.key == key && a <= e.at < a + c.windowMs then 1 else 0
  {
    assert InInterval(c, log + [e], key, a) ==
           InInterval(c, log, key, a) + if e.key == key && a <= e.at < a + c.windowMs then {|log|} else {};
  }

  lemma {:induction false} IntervalCopies(c: Config, log: seq<Entry>, e: Entry, n: nat, a: int)
    requires a <= e.at < a + c.windowMs
    ensures |InInterval(c, log + Copies(e, n), e.key, a)| == |InInterval(c, log, e.key, a)| + n
  {
    if n == 0 {
      assert log + [] == log;
    } else {
      IntervalCopies(c, log, e, n - 1, a);
      assert log + Copies(e, n) == log + Copies(e, n - 1) + [e];
      IntervalAppend(c, log + Copies(e, n - 1), e, e.key, a);
    }
  }

  lemma {:induction false} RepeatAt(l: Login, n: nat)
    ensures |Repeat(l, n)| == n && forall i :: 0 <= i < n ==> Repeat(l, n)[i] == l
  {
    if n > 0 {
      RepeatAt(l, n - 1);
    }
  }

  lemma BurstInOrder(c: Config, key: string)
    requires c.maxAttempts >= 1 && c.windowMs >= 2
    ensures InOrder(Burst(c, key))
  {
    RepeatAt(Login(key, c.windowMs - 1, c.windowMs - 1), c.maxAttempts - 1);
    RepeatAt(Login(key, c.windowMs, c.windowMs), c.maxAttempts - 1);
  }

  /** The bound on an interval is reached, whatever the limit, by every window of at least two milliseconds. */
  lemma IntervalBoundIsReached(c: Config, key: string)
    requires c.maxAttempts >= 1 && c.windowMs >= 2
    ensures InOrder(Burst(c, key))
    ensures |InInterval(c, Run(c, INITIAL, Burst(c, key)).log, key, 1)| == 2 * c.maxAttempts - 1
  {
    var w, n := c.windowMs, c.maxAttempts - 1;
    BurstInOrder(c, key);
    BurstRuns(c, key);
    var log := [Entry(key, 0, 0)];
    assert InInterval(c, log, key, 1) == {};
    IntervalCopies(c, log, Entry(key, w - 1, 0), n, 1);
    IntervalAppend(c, log + Copies(Entry(key, w - 1, 0), n), Entry(key, w, w), key, 1);
    IntervalCopies(c, log + Copies(Entry(key, w - 1, 0), n) + [Entry(key, w, w)], Entry(key, w, w), n, 1);
  }
}
