/** The limiter on the events that bots fire: ten per bot in any second. */
module RateLimit {

  const MAX_PER_SEC := 10

  /** The times still less than a second old. */
  function Recent(window: seq<real>, now: real): (r: seq<real>)
    ensures |r| <= |window|
  {
    if window == [] then []
    else if now - window[0] < 1.0 then [window[0]] + Recent(window[1..], now)
    else Recent(window[1..], now)
  }

  function WindowOf(state: map<string, seq<real>>, bot: string): seq<real> {
    if bot in state then state[bot] else []
  }

  predicate Allowed(window: seq<real>, now: real) { |Recent(window, now)| < MAX_PER_SEC }

  function NewWindow(window: seq<real>, now: real): seq<real> {
    if Allowed(window, now) then Recent(window, now) + [now] else Recent(window, now)
  }

  class RateLimiter {
    /** Per bot, the firings let through that the last check still remembered. */
    var state: map<string, seq<real>>

    constructor ()
      ensures state == map[]
    {
      state := map[];
    }

    method CheckRate(bot: string, now: real) returns (allowed: bool)
      modifies this
      ensures allowed == Allowed(WindowOf(old(state), bot), now)
      ensures state == old(state)[bot := NewWindow(WindowOf(old(state), bot), now)]
    {
      if bot !in state {
        state := state[bot := []];
      }
      state := state[bot := Recent(state[bot], now)];
      if |state[bot]| >= MAX_PER_SEC {
        return false;
      }
      state := state[bot := state[bot] + [now]];
      return true;
    }
  }

  // ---------------------------------------------------------------- whole runs

  datatype Call = Call(bot: string, now: real)

  function StateAfter(calls: seq<Call>): map<string, seq<real>>
    decreases |calls|
  {
    if calls == [] then map[]
    else
      var c, before := calls[|calls| - 1], StateAfter(calls[..|calls| - 1]);
      before[c.bot := NewWindow(WindowOf(before, c.bot), c.now)]
  }

  predicate LetThrough(calls: seq<Call>, c: Call) {
    Allowed(WindowOf(StateAfter(calls), c.bot), c.now)
  }

  /** When the bot's firings were let through. */
  function Fired(calls: seq<Call>, bot: string): seq<real>
    decreases |calls|
  {
    if calls == [] then []
    else
      var c, before := calls[|calls| - 1], calls[..|calls| - 1];
      if c.bot == bot && LetThrough(before, c) then Fired(before, bot) + [c.now] else Fired(before, bot)
  }

  /** The clock does not go back. */
  predicate Clocked(calls: seq<Call>) {
    forall i, j :: 0 <= i < j < |calls| ==> calls[i].now <= calls[j].now
  }

  predicate Ascending(s: seq<real>) {
    forall i, j :: 0 <= i < j < |s| ==> s[i] <= s[j]
  }

  lemma {:induction false} FiredInOrder(calls: seq<Call>, bot: string)
    requires Clocked(calls)
    ensures Ascending(Fired(calls, bot))
    ensures forall i :: 0 <= i < |Fired(calls, bot)| ==> calls != [] && Fired(calls, bot)[i] <= calls[|calls| - 1].now
    decreases |calls|
  {
    if calls != [] {
      var before := calls[..|calls| - 1];
      FiredInOrder(before, bot);
      if before != [] {
        assert before[|before| - 1] == calls[|calls| - 2];
        assert calls[|calls| - 2].now <= calls[|calls| - 1].now;
      }
    }
  }

  lemma {:induction false} AllRecent(s: seq<real>, now: real)
    requires forall i :: 0 <= i < |s| ==> now - s[i] < 1.0
    ensures Recent(s, now) == s
  {
    if s != [] {
      assert forall i :: 0 <= i < |s[1..]| ==> s[1..][i] == s[i + 1];
      AllRecent(s[1..], now);
    }
  }

  /** If a time is recent, so are all later ones. */
  lemma {:induction false} RecentFrom(s: seq<real>, now: real, j: nat)
    requires Ascending(s) && j < |s| && now - s[j] < 1.0
    ensures |Recent(s, now)| >= |s| - j
  {
    if j == 0 {
      AllRecent(s, now);
    } else {
      assert forall i :: 0 <= i < |s[1..]| ==> s[1..][i] == s[i + 1];
      RecentFrom(s[1..], now, j - 1);
    }
  }

  lemma {:induction false} RecentConcat(a: seq<real>, b: seq<real>, now: real)
    ensures Recent(a + b, now) == Recent(a, now) + Recent(b, now)
  {
    if a == [] {
      assert a + b == b;
    } else {
      assert (a + b)[1..] == a[1..] + b;
      RecentConcat(a[1..], b, now);
    }
  }

  lemma {:induction false} RecentOld(s: seq<real>, now: real)
    requires forall i :: 0 <= i < |s| ==> now - s[i] >= 1.0
    ensures Recent(s, now) == []
  {
    if s != [] {
      assert forall i :: 0 <= i < |s[1..]| ==> s[1..][i] == s[i + 1];
      RecentOld(s[1..], now);
    }
  }

  /** What a bot's window has forgotten is too old to matter for any later check. */
  lemma {:induction false} WindowSuffices(calls: seq<Call>, bot: string, now: real)
    requires Clocked(calls) && (calls != [] ==> calls[|calls| - 1].now <= now)
    ensures Recent(WindowOf(StateAfter(calls), bot), now) == Recent(Fired(calls, bot), now)
    decreases |calls|
  {
    if calls != [] {
      var c, before := calls[|calls| - 1], calls[..|calls| - 1];
      assert before != [] ==> before[|before| - 1] == calls[|calls| - 2];
      WindowSuffices(before, bot, now);
      if c.bot == bot {
        var window := WindowOf(StateAfter(before), bot);
        RecentTwice(window, c.now, now);
        RecentConcat(Recent(window, c.now), [c.now], now);
        RecentConcat(Fired(before, bot), [c.now], now);
      }
    }
  }

  lemma {:induction false} RecentTwice(s: seq<real>, earlier: real, now: real)
    requires earlier <= now
    ensures Recent(Recent(s, earlier), now) == Recent(s, now)
  {
    if s != [] {
      RecentTwice(s[1..], earlier, now);
      var rest := Recent(s[1..], earlier);
      if earlier - s[0] < 1.0 {
        assert ([s[0]] + rest)[1..] == rest;
      }
    }
  }

  /** If a time is too old, so are all earlier ones. */
  lemma RecentUpTo(s: seq<real>, now: real, j: nat)
    requires Ascending(s) && j < |s| && now - s[j] >= 1.0
    ensures |Recent(s, now)| < |s| - j
  {
    assert s == s[..j + 1] + s[j + 1..];
    RecentConcat(s[..j + 1], s[j + 1..], now);
    RecentOld(s[..j + 1], now);
  }

  /** A firing is refused exactly when the tenth last that was let through for that bot is less than a second old. */
  lemma RefusedIffTenthIsRecent(calls: seq<Call>, c: Call)
    requires Clocked(calls + [c])
    ensures var f := Fired(calls, c.bot);
      !LetThrough(calls, c) <==> |f| >= 10 && c.now - f[|f| - 10] < 1.0
  {
    var f := Fired(calls, c.bot);
    ClockedPrefix(calls, c);
    FiredInOrder(calls, c.bot);
    RefusedExactlyAtTen(calls, c);
    if |f| >= 10 {
      if c.now - f[|f| - 10] < 1.0 { RecentFrom(f, c.now, |f| - 10); } else { RecentUpTo(f, c.now, |f| - 10); }
    }
  }

  /** A firing is refused exactly when ten firings of that bot were let through in the last second. */
  lemma RefusedExactlyAtTen(calls: seq<Call>, c: Call)
    requires Clocked(calls + [c])
    ensures |Recent(Fired(calls, c.bot), c.now)| <= 10
    ensures !LetThrough(calls, c) <==> |Recent(Fired(calls, c.bot), c.now)| == 10
  {
    ClockedPrefix(calls, c);
    WindowSuffices(calls, c.bot, c.now);
    AtMostTen(calls, c.bot, c.now);
  }

  lemma ClockedPrefix(calls: seq<Call>, c: Call)
    requires Clocked(calls + [c])
    ensures Clocked(calls) && (calls != [] ==> calls[|calls| - 1].now <= c.now)
  {
    var all := calls + [c];
    assert forall i :: 0 <= i < |calls| ==> calls[i] == all[i];
    assert all[|calls|] == c;
  }

  lemma {:induction false} AtMostTen(calls: seq<Call>, bot: string, now: real)
    requires Clocked(calls) && (calls != [] ==> calls[|calls| - 1].now <= now)
    ensures |Recent(Fired(calls, bot), now)| <= MAX_PER_SEC
    decreases |calls|
  {
    if calls != [] {
      var c, before := calls[|calls| - 1], calls[..|calls| - 1];
      assert before != [] ==> before[|before| - 1] == calls[|calls| - 2];
      AtMostTen(before, bot, now);
      if c.bot == bot && LetThrough(before, c) {
        WindowSuffices(before, bot, c.now);
        RecentConcat(Fired(before, bot), [c.now], now);
        RecentTwice(Fired(before, bot), c.now, now);
        assert |Recent(Fired(before, bot), now)| < MAX_PER_SEC;
        assert [c.now][1..] == [];
      }
    }
  }

  /** Any eleven firings in a row that were let through span at least a second. */
  lemma {:induction false} ElevenSpanASecond(calls: seq<Call>, bot: string, i: nat)
    requires Clocked(calls) && i + 10 < |Fired(calls, bot)|
    ensures Fired(calls, bot)[i + 10] - Fired(calls, bot)[i] >= 1.0
    decreases |calls|
  {
    var c, before := calls[|calls| - 1], calls[..|calls| - 1];
    assert before + [c] == calls;
    ClockedPrefix(before, c);
    if i + 10 < |Fired(before, bot)| {
      ElevenSpanASecond(before, bot, i);
    } else {
      LastOfEleven(before, c, i);
    }
  }

  lemma LastOfEleven(calls: seq<Call>, c: Call, i: nat)
    requires Clocked(calls + [c]) && LetThrough(calls, c) && i + 10 == |Fired(calls, c.bot)|
    ensures c.now - Fired(calls, c.bot)[i] >= 1.0
  {
    RefusedExactlyAtTen(calls, c);
    ClockedPrefix(calls, c);
    FiredInOrder(calls, c.bot);
    var fired := Fired(calls, c.bot);
    hide *;
    if c.now - fired[i] < 1.0 { TooMany(fired, c.now, i); }
  }

  /** Ten recent firings leave no room. */
  lemma TooMany(fired: seq<real>, now: real, i: nat)
    requires Ascending(fired) && i + 10 == |fired| && now - fired[i] < 1.0
    ensures |Recent(fired, now)| >= MAX_PER_SEC
  {
    RecentFrom(fired, now, i);
  }

  function CallsOf(calls: seq<Call>, bot: string): seq<Call>
    decreases |calls|
  {
    if calls == [] then []
    else
      var c, before := calls[|calls| - 1], CallsOf(calls[..|calls| - 1], bot);
      if c.bot == bot then before + [c] else before
  }

  /** What a bot may fire does not depend on what other bots do. */
  lemma {:induction false} BotsAreIndependent(calls: seq<Call>, bot: string)
    ensures Fired(CallsOf(calls, bot), bot) == Fired(calls, bot)
    ensures WindowOf(StateAfter(CallsOf(calls, bot)), bot) == WindowOf(StateAfter(calls), bot)
    decreases |calls|
  {
    if calls != [] {
      var c, before := calls[|calls| - 1], calls[..|calls| - 1];
      BotsAreIndependent(before, bot);
      if c.bot == bot {
        var own := CallsOf(before, bot) + [c];
        assert own[..|own| - 1] == CallsOf(before, bot);
      }
    }
  }
}
