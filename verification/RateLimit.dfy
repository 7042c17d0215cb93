/**
  The local sliding-window rate limiter: one pruned queue of accepted request times per client,
  shown to be the same as counting over the whole history.
 */
module RateLimit {
  import opened Domain
  import opened Arithmetic

  const WINDOW := 60.0

  /** An accepted request. */
  datatype Accept = Accept(client: string, at: real)

  /** The times of a client's accepted requests, oldest first. */
  function Times(history: seq<Accept>, client: string): seq<real> {
    if |history| == 0 then []
    else
      var last := history[|history| - 1];
      Times(history[..|history| - 1], client) + if last.client == client then [last.at] else []
  }

  lemma TimesAppend(history: seq<Accept>, a: Accept, client: string)
    ensures Times(history + [a], client) == Times(history, client) + if a.client == client then [a.at] else []
  {
    assert (history + [a])[..|history|] == history;
  }

  /** How many of the times lie less than a window before now. */
  function Recent(times: seq<real>, now: real): nat {
    if |times| == 0 then 0
    else Recent(times[..|times| - 1], now) + if now - times[|times| - 1] < WINDOW then 1 else 0
  }

  /** In ascending times the recent ones are a suffix. */
  lemma {:induction false} RecentIsSuffix(times: seq<real>, now: real, k: nat)
    requires k <= |times|
    requires forall i :: 0 <= i < k ==> now - times[i] >= WINDOW
    requires forall i :: k <= i < |times| ==> now - times[i] < WINDOW
    ensures Recent(times, now) == |times| - k
  {
    if |times| > 0 {
      RecentIsSuffix(times[..|times| - 1], now, if k < |times| then k else |times| - 1);
    }
  }

  // ---------------------------------------------------------------- the policy over whole histories

  datatype Ask = Ask(client: string, at: real)

  /** The policy by counting: accept while fewer than the limit were accepted in the preceding window. */
  predicate Allowed(history: seq<Accept>, limit: int, ask: Ask) {
    Recent(Times(history, ask.client), ask.at) < limit
  }

  function Decide(history: seq<Accept>, limit: int, ask: Ask): seq<Accept> {
    if Allowed(history, limit, ask) then history + [Accept(ask.client, ask.at)] else history
  }

  function RunAll(limit: int, asks: seq<Ask>): seq<Accept> {
    if |asks| == 0 then [] else Decide(RunAll(limit, asks[..|asks| - 1]), limit, asks[|asks| - 1])
  }

  ghost predicate Chronological(asks: seq<Ask>) {
    forall i, j :: 0 <= i <= j < |asks| ==> asks[i].at <= asks[j].at
  }

  /** Each accepted time found fewer than the limit in its preceding window. */
  ghost predicate Admitted(times: seq<real>, limit: int) {
    forall i :: 0 <= i < |times| ==> Recent(times[..i], times[i]) < limit
  }

  /** How many times lie in the window that starts at a given moment. */
  function InWindow(times: seq<real>, start: real): nat {
    if |times| == 0 then 0
    else InWindow(times[..|times| - 1], start)
         + if start <= times[|times| - 1] < start + WINDOW then 1 else 0
  }

  /** Everything in the window is recent for the last of them. */
  lemma {:induction false} WindowWithinRecent(times: seq<real>, start: real, now: real)
    requires now < start + WINDOW && forall i :: 0 <= i < |times| ==> times[i] <= now
    ensures InWindow(times, start) <= Recent(times, now)
  {
    if |times| > 0 {
      WindowWithinRecent(times[..|times| - 1], start, now);
    }
  }

  lemma {:induction false} WindowBounded(times: seq<real>, limit: int, start: real)
    requires Ascending(times) && Admitted(times, limit)
    ensures InWindow(times, start) <= if limit > 0 then limit else 0
  {
    if |times| > 0 {
      var init, last := times[..|times| - 1], times[|times| - 1];
      assert forall i :: 0 <= i < |init| ==> init[..i] == times[..i];
      WindowBounded(init, limit, start);
      if start <= last < start + WINDOW {
        WindowWithinRecent(init, start, last);
        assert Recent(times[..|times| - 1], times[|times| - 1]) < limit;
      }
    }
  }

  lemma AdmitNext(times: seq<real>, at: real, limit: int)
    requires Ascending(times) && Admitted(times, limit) && Recent(times, at) < limit
    requires forall i :: 0 <= i < |times| ==> times[i] <= at
    ensures Ascending(times + [at]) && Admitted(times + [at], limit)
  {
    var all := times + [at];
    forall i | 0 <= i < |all|
      ensures Recent(all[..i], all[i]) < limit
    {
      assert all[..i] == times[..i];
      assert i == |times| ==> all[..i] == times;
    }
  }

  ghost predicate UpTo(times: seq<real>, at: real) {
    forall i :: 0 <= i < |times| ==> times[i] <= at
  }

  /** What holds of a client's accepted times when no request is later than a given moment. */
  ghost predicate TimesOk(times: seq<real>, limit: int, at: real) {
    Ascending(times) && Admitted(times, limit) && UpTo(times, at)
  }

  lemma TimesOkLater(times: seq<real>, limit: int, at: real, later: real)
    requires TimesOk(times, limit, at) && at <= later
    ensures TimesOk(times, limit, later)
  {
  }

  lemma DecideAdmits(history: seq<Accept>, limit: int, ask: Ask, client: string)
    requires TimesOk(Times(history, client), limit, ask.at)
    ensures TimesOk(Times(Decide(history, limit, ask), client), limit, ask.at)
  {
    var times := Times(history, client);
    TimesAppend(history, Accept(ask.client, ask.at), client);
    hide Times, Ascending, Admitted;
    if Allowed(history, limit, ask) && ask.client == client {
      AdmitNext(times, ask.at, limit);
    } else {
      assert times + [] == times;
    }
  }

  lemma {:induction false} RunAdmits(limit: int, asks: seq<Ask>, client: string, at: real)
    requires Chronological(asks) && (|asks| > 0 ==> asks[|asks| - 1].at <= at)
    ensures TimesOk(Times(RunAll(limit, asks), client), limit, at)
  {
    if |asks| > 0 {
      var init, ask := asks[..|asks| - 1], asks[|asks| - 1];
      hide Times, TimesOk, Decide;
      RunAdmits(limit, init, client, ask.at);
      DecideAdmits(RunAll(limit, init), limit, ask, client);
      TimesOkLater(Times(RunAll(limit, asks), client), limit, ask.at, at);
    }
  }

  /**
    Main result: on every chronological sequence of requests, no 60-second window holds more
    acceptances of a client than the limit.
   */
  lemma NoWindowOverLimit(limit: int, asks: seq<Ask>, client: string, start: real)
    requires Chronological(asks)
    ensures InWindow(Times(RunAll(limit, asks), client), start) <= if limit > 0 then limit else 0
  {
    RunAdmits(limit, asks, client, if |asks| > 0 then asks[|asks| - 1].at else 0.0);
    WindowBounded(Times(RunAll(limit, asks), client), limit, start);
  }

  /** The requests of a client that were accepted less than sixty seconds before a moment. */
  function Within(history: seq<Accept>, client: string, at: real): set<nat> {
    set i: nat | i < |history| && history[i].client == client && at - history[i].at < 60.0
  }

  lemma {:induction false} RecentIsCount(history: seq<Accept>, client: string, at: real)
    ensures Recent(Times(history, client), at) == |Within(history, client, at)|
  {
    if |history| == 0 {
      assert Within(history, client, at) == {};
    } else {
      var init, last, n := history[..|history| - 1], history[|history| - 1], |history| - 1;
      RecentIsCount(init, client, at);
      var before, after := Within(init, client, at), Within(history, client, at);
      var times := Times(init, client);
      if last.client == client {
        assert (times + [last.at])[..|times|] == times;
        assert Times(history, client) == times + [last.at];
        if at - last.at < 60.0 {
          assert after == before + {n};
        } else {
          assert after == before;
        }
      } else {
        assert times + [] == times;
        assert after == before;
      }
    }
  }

  /**
    Main result: a request is accepted exactly when fewer than the limit of the client's were accepted
    in the last sixty seconds.
   */
  lemma AcceptedIff(history: seq<Accept>, limit: int, client: string, at: real)
    ensures Decide(history, limit, Ask(client, at)) ==
            if |Within(history, client, at)| < limit then history + [Accept(client, at)] else history
  {
    RecentIsCount(history, client, at);
  }

  /** A run takes the requests one by one, starting from nothing. */
  lemma RunInWords(limit: int, asks: seq<Ask>, client: string, at: real)
    ensures RunAll(limit, []) == []
    ensures RunAll(limit, asks + [Ask(client, at)]) ==
            if |Within(RunAll(limit, asks), client, at)| < limit then RunAll(limit, asks) + [Accept(client, at)]
            else RunAll(limit, asks)
  {
    assert (asks + [Ask(client, at)])[..|asks|] == asks;
    AcceptedIff(RunAll(limit, asks), limit, client, at);
    hide Decide;
  }

  /** The acceptances of a client in the sixty seconds from a moment on. */
  function From(history: seq<Accept>, client: string, start: real): set<nat> {
    set i: nat | i < |history| && history[i].client == client && start <= history[i].at < start + 60.0
  }

  lemma {:induction false} WindowIsCount(history: seq<Accept>, client: string, start: real)
    ensures InWindow(Times(history, client), start) == |From(history, client, start)|
  {
    if |history| == 0 {
      assert From(history, client, start) == {};
    } else {
      var init, last, n := history[..|history| - 1], history[|history| - 1], |history| - 1;
      WindowIsCount(init, client, start);
      var before, after := From(init, client, start), From(history, client, start);
      var times := Times(init, client);
      if last.client == client {
        assert (times + [last.at])[..|times|] == times;
        assert Times(history, client) == times + [last.at];
        if start <= last.at < start + 60.0 {
          assert after == before + {n};
        } else {
          assert after == before;
        }
      } else {
        assert times + [] == times;
        assert after == before;
      }
    }
  }

  /**
    The same bound counted over the whole history: no sixty seconds hold more acceptances of a client
    than the limit.
   */
  lemma NoSixtySecondsOverLimit(limit: int, asks: seq<Ask>, client: string, start: real)
    requires Chronological(asks)
    ensures |From(RunAll(limit, asks), client, start)| <= if limit > 0 then limit else 0
  {
    NoWindowOverLimit(limit, asks, client, start);
    WindowIsCount(RunAll(limit, asks), client, start);
  }

  // ---------------------------------------------------------------- the limiter

  /** A queue is the history without a prefix that has left every window. */
  ghost predicate QueueOk(times: seq<real>, queue: seq<real>, clock: real) {
    && |queue| <= |times| && queue == times[|times| - |queue|..]
    && (forall i :: 0 <= i < |times| - |queue| ==> clock - times[i] >= WINDOW)
    && Ascending(times) && UpTo(times, clock)
  }

  lemma QueueLater(times: seq<real>, queue: seq<real>, clock: real, now: real)
    requires QueueOk(times, queue, clock) && now >= clock
    ensures QueueOk(times, queue, now)
  {
  }

  lemma QueueAppend(times: seq<real>, queue: seq<real>, now: real)
    requires QueueOk(times, queue, now)
    ensures QueueOk(times + [now], queue + [now], now)
  {
    assert (times + [now])[|times| - |queue|..] == queue + [now];
  }

  /** The pruning loop: what is left is exactly the recent part. */
  method Prune(queue: seq<real>, now: real, ghost times: seq<real>) returns (pruned: seq<real>)
    requires QueueOk(times, queue, now)
    ensures QueueOk(times, pruned, now) && |pruned| == Recent(times, now)
  {
    pruned := queue;
    while |pruned| > 0 && now - pruned[0] >= WINDOW
      invariant QueueOk(times, pruned, now)
    {
      assert pruned[1..] == times[|times| - |pruned[1..]|..];
      assert times[|times| - |pruned|] == pruned[0];
      pruned := pruned[1..];
    }
    forall i | |times| - |pruned| <= i < |times|
      ensures now - times[i] < WINDOW
    {
      assert pruned[0] == times[|times| - |pruned|] <= times[i];
    }
    RecentIsSuffix(times, now, |times| - |pruned|);
  }

  class RateLimiter {
    const limit: int
    var events: map<string, seq<real>>
    ghost var history: seq<Accept>
    ghost var clock: real

    function QueueOf(client: string): seq<real>
      reads this
    {
      if client in events then events[client] else []
    }

    ghost predicate Valid()
      reads this
    {
      forall client :: QueueOk(Times(history, client), QueueOf(client), clock)
    }

    constructor (limit: int)
      ensures Valid() && this.limit == limit && history == [] && clock == 0.0
    {
      this.limit := limit;
      events, history, clock := map[], [], 0.0;
    }

    /** Accepts exactly when counting the client's whole history over the preceding window allows it. */
    method Dispatch(client: string, now: real) returns (allowed: bool)
      requires Valid() && now >= clock
      modifies this
      ensures Valid() && clock == now
      ensures allowed <==> Allowed(old(history), limit, Ask(client, now))
      ensures history == Decide(old(history), limit, Ask(client, now))
    {
      ghost var before := history;
      hide QueueOk, Times;
      QueueLater(Times(history, client), QueueOf(client), clock, now);
      var queue := Prune(QueueOf(client), now, Times(history, client));
      allowed := |queue| < limit;
      if allowed {
        QueueAppend(Times(history, client), queue, now);
        TimesAppend(before, Accept(client, now), client);
        queue := queue + [now];
        history := history + [Accept(client, now)];
      }
      events := events[client := queue];
      clock := now;
      forall c
        ensures QueueOk(Times(history, c), QueueOf(c), clock)
      {
        if c != client {
          TimesAppend(before, Accept(client, now), c);
          assert Times(before, c) + [] == Times(before, c);
          QueueLater(Times(before, c), old(QueueOf(c)), old(clock), now);
        }
      }
    }
  }
}
