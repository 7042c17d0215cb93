/**
  Durable notification delivery: messages are retried with a bounded exponential delay and dead
  lettered after a number of attempts. A flush takes a batch in due order and works through it;
  between its awaits other tasks may enqueue and requeue messages.
 */
module Outbox {
  import opened Domain
  import opened Arithmetic

  /** A message is identified by its position in the outbox, which is its order of insertion. */
  type MessageId = nat

  datatype Entry = Entry(
    createdAt: real,
    sentAt: Option<real>,
    attempts: nat,
    lastAttemptAt: Option<real>,
    nextAttemptAt: Option<real>,
    deadAt: Option<real>)

  type Box = seq<Entry>

  datatype Config = Config(batchSize: nat, baseSeconds: real, maxSeconds: real, maxAttempts: nat) {
    /** The validated ranges of the notification settings. */
    predicate Valid() {
      batchSize >= 1 && baseSeconds > 0.0 && maxSeconds > 0.0 && maxAttempts >= 1
    }
  }

  // ---------------------------------------------------------------- retry planning

  function Pow2(n: nat): (p: nat)
    ensures p >= 1
  {
    if n == 0 then 1 else 2 * Pow2(n - 1)
  }

  datatype RetryPlan = RetryPlan(nextAttemptAt: Option<real>, deadLetteredAt: Option<real>) | InvalidArguments

  /** The delay before it is capped. */
  function Backoff(baseSeconds: real, exponent: nat): real {
    baseSeconds * Pow2(exponent) as real
  }

  /** The retry decision for an attempt that just failed. */
  function PlanRetry(attempts: int, baseSeconds: real, maxSeconds: real, maxAttempts: int, now: real): RetryPlan {
    if attempts < 1 || baseSeconds <= 0.0 || maxSeconds <= 0.0 || maxAttempts < 1 then InvalidArguments
    else if attempts >= maxAttempts then RetryPlan(None, Some(now))
    else
      var exponent := MinInt(attempts - 1, 30);
      RetryPlan(Some(now + MinReal(maxSeconds, Backoff(baseSeconds, exponent))), None)
  }

  lemma BackoffGrows(base: real, n: nat)
    requires base > 0.0
    ensures Backoff(base, n) >= base > 0.0 && Backoff(base, 0) == base && Backoff(base, n + 1) == 2.0 * Backoff(base, n)
  {
    var p := Pow2(n);
    assert Pow2(n + 1) == 2 * p;
    assert base * (2 * p) as real == 2.0 * (base * p as real);
    assert base * p as real >= base * 1.0;
  }

  /**
    A retry is scheduled strictly later and within the maximal delay, exactly while attempts are left;
    otherwise the message is dead.
   */
  lemma RetryIsLater(attempts: int, baseSeconds: real, maxSeconds: real, maxAttempts: int, now: real)
    requires attempts >= 1 && baseSeconds > 0.0 && maxSeconds > 0.0 && maxAttempts >= 1
    ensures var plan := PlanRetry(attempts, baseSeconds, maxSeconds, maxAttempts, now);
            && plan.RetryPlan?
            && (plan.nextAttemptAt.Some? <==> attempts < maxAttempts)
            && (plan.deadLetteredAt.Some? <==> attempts >= maxAttempts)
            && (plan.nextAttemptAt.Some? ==> now < plan.nextAttemptAt.value <= now + maxSeconds)
            && (plan.nextAttemptAt.Some? && attempts == 1 ==>
                  plan.nextAttemptAt.value == now + MinReal(maxSeconds, baseSeconds))
  {
    BackoffGrows(baseSeconds, MinInt(attempts - 1, 30));
    hide Backoff;
  }

  /** The retry is refused exactly for arguments that make no sense. */
  lemma InvalidIff(attempts: int, baseSeconds: real, maxSeconds: real, maxAttempts: int, now: real)
    ensures PlanRetry(attempts, baseSeconds, maxSeconds, maxAttempts, now).InvalidArguments? <==>
              attempts < 1 || maxAttempts < 1 || !(baseSeconds > 0.0) || !(maxSeconds > 0.0)
  {
    hide Backoff;
  }

  /**
    Main result on delays: the first retry comes after the base delay, each further one after twice the delay of
    the one before, up to the maximal delay; from the thirty-first attempt on the delay stays as it is.
   */
  lemma DelayDoubles(attempts: int, baseSeconds: real, maxSeconds: real, maxAttempts: int, now: real)
    requires attempts >= 1 && baseSeconds > 0.0 && maxSeconds > 0.0 && attempts + 1 < maxAttempts
    ensures var plan := PlanRetry(attempts, baseSeconds, maxSeconds, maxAttempts, now);
            var next := PlanRetry(attempts + 1, baseSeconds, maxSeconds, maxAttempts, now);
            && plan.RetryPlan? && next.RetryPlan? && plan.nextAttemptAt.Some? && next.nextAttemptAt.Some?
            && var delay, after := plan.nextAttemptAt.value - now, next.nextAttemptAt.value - now;
            && (attempts <= 30 ==> after == if 2.0 * delay <= maxSeconds then 2.0 * delay else maxSeconds)
            && (attempts > 30 ==> after == delay)
            && (attempts == 1 ==> delay == if baseSeconds <= maxSeconds then baseSeconds else maxSeconds)
  {
    BackoffGrows(baseSeconds, MinInt(attempts - 1, 30));
    BackoffGrows(baseSeconds, 0);
    hide Backoff;
  }

  // ---------------------------------------------------------------- the order of delivery

  function DueAt(e: Entry): real {
    if e.nextAttemptAt.Some? then e.nextAttemptAt.value else e.createdAt
  }

  predicate Open(e: Entry) {
    e.sentAt.None? && e.deadAt.None?
  }

  predicate Eligible(e: Entry, now: real) {
    Open(e) && (e.nextAttemptAt.Some? ==> e.nextAttemptAt.value <= now)
  }

  /** Delivery order: by due time, then by insertion. */
  predicate Before(box: Box, i: MessageId, j: MessageId)
    requires i < |box| && j < |box|
  {
    DueAt(box[i]) < DueAt(box[j]) || (DueAt(box[i]) == DueAt(box[j]) && i < j)
  }

  ghost predicate InRange(box: Box, ids: seq<MessageId>) {
    forall a :: 0 <= a < |ids| ==> ids[a] < |box|
  }

  ghost predicate Ordered(box: Box, ids: seq<MessageId>)
    requires InRange(box, ids)
  {
    forall a, b :: 0 <= a < b < |ids| ==> Before(box, ids[a], ids[b])
  }

  /** The batch holds the first eligible messages in delivery order, up to the limit. */
  ghost predicate IsBatch(box: Box, now: real, limit: nat, batch: seq<MessageId>) {
    && InRange(box, batch) && Ordered(box, batch) && |batch| <= limit
    && (forall a :: 0 <= a < |batch| ==> Eligible(box[batch[a]], now))
    && (forall i :: 0 <= i < |box| && Eligible(box[i], now) && i !in batch ==>
          |batch| == limit && forall a :: 0 <= a < |batch| ==> Before(box, batch[a], i))
  }

  /** Insert behind everything that is due no later: the step of a stable sort. */
  method InsertByDue(box: Box, ids: seq<MessageId>, i: MessageId) returns (r: seq<MessageId>)
    requires InRange(box, ids) && Ordered(box, ids) && i < |box|
    requires forall a :: 0 <= a < |ids| ==> ids[a] < i
    ensures InRange(box, r) && Ordered(box, r) && |r| == |ids| + 1
    ensures forall x: nat :: x in r <==> x in ids || x == i
  {
    var k := |ids|;
    while k > 0 && DueAt(box[ids[k - 1]]) > DueAt(box[i])
      invariant 0 <= k <= |ids|
      invariant forall a :: k <= a < |ids| ==> Before(box, i, ids[a])
    {
      k := k - 1;
    }
    InsertOrdered(box, ids, i, k);
    r := ids[..k] + [i] + ids[k..];
    InsertMembers(ids, i, k);
  }

  lemma InsertMembers(ids: seq<MessageId>, i: MessageId, k: nat)
    requires k <= |ids|
    ensures forall x: nat :: x in ids[..k] + [i] + ids[k..] <==> x in ids || x == i
  {
    assert ids == ids[..k] + ids[k..];
  }

  lemma InsertOrdered(box: Box, ids: seq<MessageId>, i: MessageId, k: nat)
    requires InRange(box, ids) && Ordered(box, ids) && i < |box| && k <= |ids|
    requires forall a :: 0 <= a < |ids| ==> ids[a] < i
    requires k > 0 ==> DueAt(box[ids[k - 1]]) <= DueAt(box[i])
    requires forall a :: k <= a < |ids| ==> Before(box, i, ids[a])
    ensures InRange(box, ids[..k] + [i] + ids[k..]) && Ordered(box, ids[..k] + [i] + ids[k..])
  {
    var r := ids[..k] + [i] + ids[k..];
    assert forall a :: 0 <= a < |r| ==> r[a] == if a < k then ids[a] else if a == k then i else ids[a - 1];
    forall a | 0 <= a < k
      ensures Before(box, ids[a], i)
    {
      if a < k - 1 {
        assert Before(box, ids[a], ids[k - 1]);
      }
    }
  }

  method PendingOutbox(box: Box, limit: nat, now: real) returns (batch: seq<MessageId>)
    ensures IsBatch(box, now, limit, batch)
  {
    var pending: seq<MessageId> := [];
    for i := 0 to |box|
      invariant InRange(box, pending) && Ordered(box, pending)
      invariant forall x: nat :: x in pending <==> x < i && Eligible(box[x], now)
    {
      if Eligible(box[i], now) {
        assert forall a :: 0 <= a < |pending| ==> pending[a] in pending;
        pending := InsertByDue(box, pending, i);
      }
    }
    batch := if |pending| <= limit then pending else pending[..limit];
    PrefixIsBatch(box, now, limit, pending);
  }

  lemma PrefixIsBatch(box: Box, now: real, limit: nat, pending: seq<MessageId>)
    requires InRange(box, pending) && Ordered(box, pending)
    requires forall x: nat :: x in pending <==> x < |box| && Eligible(box[x], now)
    ensures IsBatch(box, now, limit, if |pending| <= limit then pending else pending[..limit])
  {
    var batch := if |pending| <= limit then pending else pending[..limit];
    assert forall a :: 0 <= a < |batch| ==> batch[a] == pending[a] && pending[a] in pending;
    forall i | 0 <= i < |box| && Eligible(box[i], now) && i !in batch
      ensures |batch| == limit && forall a :: 0 <= a < |batch| ==> Before(box, batch[a], i)
    {
      var b :| 0 <= b < |pending| && pending[b] == i;
      assert b >= |batch|;
    }
  }

  /** When a message is due: at its scheduled retry, or when it was created if none is scheduled. */
  predicate DueIs(e: Entry, due: real) {
    match e.nextAttemptAt
    case Some(at) => due == at
    case None => due == e.createdAt
  }

  /**
    A batch in words: it holds messages that are neither sent nor dead and whose retry, if scheduled, has come;
    they are ordered by due time and then by age; and one that is left out stands behind a full batch.
   */
  lemma BatchInWords(box: Box, now: real, limit: nat, batch: seq<MessageId>, a: nat, due: real, i: nat, dueI: real)
    requires IsBatch(box, now, limit, batch) && a < |batch| && i < |box|
    requires DueIs(box[batch[a]], due) && DueIs(box[i], dueI)
    ensures |batch| <= limit
    ensures var e := box[batch[a]];
            e.sentAt.None? && e.deadAt.None? && (e.nextAttemptAt.None? || e.nextAttemptAt.value <= now)
    ensures forall b :: a < b < |batch| && batch[b] == i ==> due < dueI || (due == dueI && batch[a] < i)
    ensures (i !in batch && box[i].sentAt.None? && box[i].deadAt.None?
             && (box[i].nextAttemptAt.None? || box[i].nextAttemptAt.value <= now)) ==>
              |batch| == limit && (due < dueI || (due == dueI && batch[a] < i))
  {
    assert Eligible(box[batch[a]], now);
    assert forall b :: a < b < |batch| ==> Before(box, batch[a], batch[b]);
  }

  // ---------------------------------------------------------------- the operations on one entry

  function Attempted(e: Entry, now: real): Entry {
    e.(attempts := e.attempts + 1, lastAttemptAt := Some(now), nextAttemptAt := None)
  }

  function FailedEntry(cfg: Config, e: Entry, count: nat, now: real): Entry
    requires cfg.Valid() && count >= 1
  {
    var plan := PlanRetry(count, cfg.baseSeconds, cfg.maxSeconds, cfg.maxAttempts, now);
    e.(nextAttemptAt := plan.nextAttemptAt, deadAt := plan.deadLetteredAt)
  }

  function SentEntry(e: Entry, now: real): Entry {
    e.(sentAt := Some(now), nextAttemptAt := None, deadAt := None)
  }

  function RequeuedEntry(e: Entry, now: real): Entry {
    e.(attempts := 0, lastAttemptAt := None, nextAttemptAt := Some(now), deadAt := None)
  }

  function NewEntry(now: real): Entry {
    Entry(now, None, 0, None, None, None)
  }

  // ---------------------------------------------------------------- the dispatcher as a state machine

  /** The message whose delivery is awaited, with the attempt count that was read for it. */
  datatype InFlight = InFlight(id: MessageId, count: nat)

  datatype LogEntry = Tried(id: MessageId) | Delivered(id: MessageId) | Reset(id: MessageId)

  datatype Machine = Machine(
    box: Box,
    remaining: seq<MessageId>,
    inFlight: Option<InFlight>,
    now: real,
    flushes: nat,
    log: seq<LogEntry>)

  datatype Action =
    | Enqueue(at: real)
    | Requeue(id: MessageId, at: real)
    | BeginFlush(batch: seq<MessageId>, at: real)
    | Attempt(at: real)
    | Settle(delivered: bool, at: real)

  predicate Quiet(s: Machine) {
    s.remaining == [] && s.inFlight.None?
  }

  /** One step; an action that is not possible now, or goes back in time, changes nothing. */
  ghost function Step(cfg: Config, s: Machine, a: Action): Machine
    requires cfg.Valid() && Sane(cfg, s)
  {
    if a.at < s.now then s
    else
      var s' := s.(now := a.at);
      match a
      case Enqueue(at) => s'.(box := s.box + [NewEntry(at)])
      case Requeue(id, at) =>
        if id >= |s.box| || s.box[id].sentAt.Some? then s'
        else s'.(box := s.box[id := RequeuedEntry(s.box[id], at)], log := s.log + [Reset(id)])
      case BeginFlush(batch, at) =>
        if !Quiet(s) || !IsBatch(s.box, at, cfg.batchSize, batch) then s'
        else s'.(remaining := batch, flushes := s.flushes + 1)
      case Attempt(at) =>
        if s.remaining == [] || s.inFlight.Some? then s'
        else
          var id := s.remaining[0];
          s'.(box := s.box[id := Attempted(s.box[id], at)],
              remaining := s.remaining[1..],
              inFlight := Some(InFlight(id, s.box[id].attempts + 1)),
              log := s.log + [Tried(id)])
      case Settle(delivered, at) =>
        if s.inFlight.None? then s'
        else
          var InFlight(id, count) := s.inFlight.value;
          if delivered
          then s'.(box := s.box[id := SentEntry(s.box[id], at)], inFlight := None, log := s.log + [Delivered(id)])
          else s'.(box := s.box[id := FailedEntry(cfg, s.box[id], count, at)], inFlight := None)
  }

  /**
    The steps in words: an attempt counts, is stamped and unschedules the message; delivery sends it and ends its
    retries; a requeue starts it afresh, due now; a flush that starts takes its batch; an answer frees the dispatcher.
   */
  lemma StepsInWords(cfg: Config, s: Machine, at: real, id: MessageId, batch: seq<MessageId>)
    requires cfg.Valid() && Sane(cfg, s) && at >= s.now && id < |s.box|
    ensures Step(cfg, s, Enqueue(at)).box == s.box + [Entry(at, None, 0, None, None, None)]
    ensures s.box[id].sentAt.None? ==>
              Step(cfg, s, Requeue(id, at)).box
              == s.box[id := Entry(s.box[id].createdAt, None, 0, None, Some(at), None)]
    ensures s.box[id].sentAt.Some? ==> Step(cfg, s, Requeue(id, at)).box == s.box
    ensures s.remaining != [] && s.inFlight.None? && s.remaining[0] == id ==>
              var after, e := Step(cfg, s, Attempt(at)), s.box[id];
              && after.box == s.box[id := Entry(e.createdAt, e.sentAt, e.attempts + 1, Some(at), None, e.deadAt)]
              && after.remaining == s.remaining[1..] && after.inFlight == Some(InFlight(id, e.attempts + 1))
    ensures s.inFlight.Some? && s.inFlight.value.id == id ==>
              var after, e := Step(cfg, s, Settle(true, at)), s.box[id];
              && after.box == s.box[id := Entry(e.createdAt, Some(at), e.attempts, e.lastAttemptAt, None, None)]
              && after.inFlight.None? && Step(cfg, s, Settle(false, at)).inFlight.None?
    ensures s.inFlight.Some? && s.inFlight.value.id == id ==>
              var after, e := Step(cfg, s, Settle(false, at)).box, s.box[id];
              && |after| == |s.box| && (forall k :: 0 <= k < |s.box| && k != id ==> after[k] == s.box[k])
              && after[id] == e.(nextAttemptAt := after[id].nextAttemptAt, deadAt := after[id].deadAt)
              && (after[id].deadAt == if s.inFlight.value.count >= cfg.maxAttempts then Some(at) else None)
              && (after[id].nextAttemptAt.Some? <==> s.inFlight.value.count < cfg.maxAttempts)
    ensures s.remaining == [] && s.inFlight.None? && IsBatch(s.box, at, cfg.batchSize, batch) ==>
              var after := Step(cfg, s, BeginFlush(batch, at));
              after.remaining == batch && after.flushes == s.flushes + 1 && after.box == s.box
  {
    hide IsBatch, Backoff;
  }

  /** What every reachable state satisfies. */
  ghost predicate Sane(cfg: Config, s: Machine) {
    && (forall a :: 0 <= a < |s.remaining| ==> s.remaining[a] < |s.box| && Open(s.box[s.remaining[a]]))
    && (forall a, b :: 0 <= a < b < |s.remaining| ==> s.remaining[a] != s.remaining[b])
    && (s.inFlight.Some? ==>
          && s.inFlight.value.id < |s.box| && s.inFlight.value.count >= 1
          && s.inFlight.value.id !in s.remaining
          && s.box[s.inFlight.value.id].sentAt.None?)
  }

  lemma BatchDistinct(box: Box, now: real, limit: nat, batch: seq<MessageId>)
    requires IsBatch(box, now, limit, batch)
    ensures forall a :: 0 <= a < |batch| ==> batch[a] < |box| && Open(box[batch[a]])
    ensures forall a, b :: 0 <= a < b < |batch| ==> batch[a] != batch[b]
  {
    forall a, b | 0 <= a < b < |batch|
      ensures batch[a] != batch[b]
    {
      assert Before(box, batch[a], batch[b]);
    }
  }

  lemma AttemptSane(cfg: Config, s: Machine, at: real)
    requires cfg.Valid() && Sane(cfg, s)
    ensures Sane(cfg, Step(cfg, s, Attempt(at)))
  {
    hide IsBatch;
    if s.remaining != [] {
      assert s.remaining[0] in s.remaining;
      assert forall b :: 0 <= b < |s.remaining[1..]| ==> s.remaining[1..][b] == s.remaining[b + 1];
    }
  }

  lemma StepSane(cfg: Config, s: Machine, a: Action)
    requires cfg.Valid() && Sane(cfg, s)
    ensures Sane(cfg, Step(cfg, s, a))
  {
    hide IsBatch, PlanRetry;
    match a {
      case BeginFlush(batch, at) =>
        if IsBatch(s.box, at, cfg.batchSize, batch) {
          BatchDistinct(s.box, at, cfg.batchSize, batch);
        }
      case Attempt(at) => AttemptSane(cfg, s, at);
      case _ =>
    }
  }

  ghost function Run(cfg: Config, s: Machine, actions: seq<Action>): (r: Machine)
    requires cfg.Valid() && Sane(cfg, s)
    ensures Sane(cfg, r)
  {
    if |actions| == 0 then s
    else
      var before := Run(cfg, s, actions[..|actions| - 1]);
      StepSane(cfg, before, actions[|actions| - 1]);
      Step(cfg, before, actions[|actions| - 1])
  }

  const EMPTY_MACHINE := Machine([], [], None, 0.0, 0, [])

  // ---------------------------------------------------------------- attempts are bounded

  ghost function TriesSinceReset(log: seq<LogEntry>, id: MessageId): nat {
    if |log| == 0 then 0
    else
      var last := log[|log| - 1];
      if last == Reset(id) then 0
      else TriesSinceReset(log[..|log| - 1], id) + if last == Tried(id) then 1 else 0
  }

  lemma TriesAppend(log: seq<LogEntry>, entry: LogEntry, id: MessageId)
    ensures TriesSinceReset(log + [entry], id) ==
            if entry == Reset(id) then 0 else TriesSinceReset(log, id) + if entry == Tried(id) then 1 else 0
  {
    assert (log + [entry])[..|log|] == log;
  }

  ghost predicate IsInFlight(s: Machine, id: MessageId) {
    s.inFlight.Some? && s.inFlight.value.id == id
  }

  /** Counters match the log, an open message at rest has attempts left, and delivery is final. */
  ghost predicate Counted(cfg: Config, s: Machine) {
    && (forall id: nat :: id < |s.box| ==> s.box[id].attempts == TriesSinceReset(s.log, id) <= cfg.maxAttempts)
    && (forall id: nat :: id >= |s.box| ==> TriesSinceReset(s.log, id) == 0)
    && (forall id: nat :: id < |s.box| && Open(s.box[id]) && !IsInFlight(s, id) ==>
          s.box[id].attempts < cfg.maxAttempts)
    && (s.inFlight.Some? ==>
          s.inFlight.value.id < |s.box| && s.box[s.inFlight.value.id].attempts in {0, s.inFlight.value.count})
    && (forall i :: 0 <= i < |s.log| && s.log[i].Delivered? ==>
          s.log[i].id < |s.box| && s.box[s.log[i].id].sentAt.Some?)
    && (forall i, j :: 0 <= i < j < |s.log| && s.log[i].Delivered? ==> s.log[j] != Tried(s.log[i].id))
  }

  lemma LogStep(s: Machine, entry: LogEntry)
    ensures forall id: nat :: TriesSinceReset(s.log + [entry], id) ==
              if entry == Reset(id) then 0 else TriesSinceReset(s.log, id) + if entry == Tried(id) then 1 else 0
  {
    forall id: nat
      ensures TriesSinceReset(s.log + [entry], id) ==
              if entry == Reset(id) then 0 else TriesSinceReset(s.log, id) + if entry == Tried(id) then 1 else 0
    {
      TriesAppend(s.log, entry, id);
    }
  }

  lemma AttemptCounted(cfg: Config, s: Machine, at: real)
    requires cfg.Valid() && Sane(cfg, s) && Counted(cfg, s)
    ensures Counted(cfg, Step(cfg, s, Attempt(at)))
  {
    if at >= s.now && s.remaining != [] && s.inFlight.None? {
      LogStep(s, Tried(s.remaining[0]));
      hide TriesSinceReset, IsBatch;
    }
  }

  lemma DeliveredCounted(cfg: Config, s: Machine, at: real)
    requires cfg.Valid() && Sane(cfg, s) && Counted(cfg, s) && at >= s.now && s.inFlight.Some?
    ensures Counted(cfg, Step(cfg, s, Settle(true, at)))
  {
    var id, after := s.inFlight.value.id, Step(cfg, s, Settle(true, at));
    LogStep(s, Delivered(id));
    hide TriesSinceReset, IsBatch;
    assert after.box == s.box[id := SentEntry(s.box[id], at)] && after.log == s.log + [Delivered(id)];
    assert after.box[id].attempts == s.box[id].attempts && after.box[id].sentAt.Some?;
    assert forall k: nat :: k < |s.box| && k != id ==> after.box[k] == s.box[k];
    assert forall i :: 0 <= i < |s.log| ==> after.log[i] == s.log[i];
  }

  lemma FailedCounted(cfg: Config, s: Machine, at: real)
    requires cfg.Valid() && Sane(cfg, s) && Counted(cfg, s) && at >= s.now && s.inFlight.Some?
    ensures Counted(cfg, Step(cfg, s, Settle(false, at)))
  {
    var InFlight(id, count) := s.inFlight.value;
    var after := Step(cfg, s, Settle(false, at));
    RetryIsLater(count, cfg.baseSeconds, cfg.maxSeconds, cfg.maxAttempts, at);
    hide TriesSinceReset, IsBatch, PlanRetry;
    assert after.box == s.box[id := FailedEntry(cfg, s.box[id], count, at)] && after.log == s.log;
    assert after.box[id].attempts == s.box[id].attempts && after.box[id].sentAt == s.box[id].sentAt;
    assert Open(after.box[id]) ==> count < cfg.maxAttempts;
    assert forall k: nat :: k < |s.box| && k != id ==> after.box[k] == s.box[k];
  }

  lemma SettleCounted(cfg: Config, s: Machine, delivered: bool, at: real)
    requires cfg.Valid() && Sane(cfg, s) && Counted(cfg, s)
    ensures Counted(cfg, Step(cfg, s, Settle(delivered, at)))
  {
    if at >= s.now && s.inFlight.Some? {
      if delivered {
        DeliveredCounted(cfg, s, at);
      } else {
        FailedCounted(cfg, s, at);
      }
    }
    hide Counted, Sane, IsBatch, PlanRetry;
    assert at < s.now ==> Step(cfg, s, Settle(delivered, at)) == s;
    assert at >= s.now && s.inFlight.None? ==> Step(cfg, s, Settle(delivered, at)) == s.(now := at);
    SameCounted(cfg, s, at);
  }

  lemma SameCounted(cfg: Config, s: Machine, at: real)
    requires Counted(cfg, s)
    ensures Counted(cfg, s.(now := at))
  {
    hide TriesSinceReset;
  }

  lemma RequeueCounted(cfg: Config, s: Machine, id: MessageId, at: real)
    requires cfg.Valid() && Sane(cfg, s) && Counted(cfg, s)
    ensures Counted(cfg, Step(cfg, s, Requeue(id, at)))
  {
    LogStep(s, Reset(id));
    hide TriesSinceReset, IsBatch;
  }

  lemma StepCounted(cfg: Config, s: Machine, a: Action)
    requires cfg.Valid() && Sane(cfg, s) && Counted(cfg, s)
    ensures Counted(cfg, Step(cfg, s, a))
  {
    hide TriesSinceReset, IsBatch;
    match a {
      case Attempt(at) => AttemptCounted(cfg, s, at);
      case Settle(delivered, at) => SettleCounted(cfg, s, delivered, at);
      case Requeue(id, at) => RequeueCounted(cfg, s, id, at);
      case _ =>
    }
  }

  lemma {:induction false} CountedInEveryRun(cfg: Config, actions: seq<Action>)
    requires cfg.Valid()
    ensures Counted(cfg, Run(cfg, EMPTY_MACHINE, actions))
  {
    if |actions| > 0 {
      CountedInEveryRun(cfg, actions[..|actions| - 1]);
      StepCounted(cfg, Run(cfg, EMPTY_MACHINE, actions[..|actions| - 1]), actions[|actions| - 1]);
    }
  }

  /**
    Main result on attempts: in every run a message is tried at most `maxAttempts` times between
    one enqueue or requeue and the next, and never again once it was delivered.
   */
  lemma AttemptsBounded(cfg: Config, actions: seq<Action>, id: MessageId)
    requires cfg.Valid()
    ensures var s := Run(cfg, EMPTY_MACHINE, actions);
            && TriesSinceReset(s.log, id) <= cfg.maxAttempts
            && (forall i, j :: 0 <= i < j < |s.log| && s.log[i] == Delivered(id) ==> s.log[j] != Tried(id))
  {
    CountedInEveryRun(cfg, actions);
    hide Run, TriesSinceReset;
  }

  // ---------------------------------------------------------------- no starvation

  /** The message is due and waits outside any batch. */
  ghost predicate Waits(s: Machine, m: MessageId, due: real) {
    && m < |s.box| && Open(s.box[m]) && DueAt(s.box[m]) == due <= s.now
    && m !in s.remaining && !IsInFlight(s, m)
  }

  /** The undelivered messages that would be taken before it. */
  ghost function Ahead(s: Machine, m: MessageId): set<MessageId>
    requires m < |s.box|
  {
    set i: MessageId | 0 <= i < |s.box| && i != m && Open(s.box[i]) && Before(s.box, i, m)
                       && i !in s.remaining && !IsInFlight(s, i)
  }

  /** A requeue that puts another message in front: it is older and requeued no later than the due time. */
  predicate Overtakes(a: Action, m: MessageId, due: real) {
    a.Requeue? && a.id < m && a.at <= due
  }

  /** How many requeues of a run put another message in front. */
  function Overtakers(actions: seq<Action>, m: MessageId, due: real): nat {
    if |actions| == 0 then 0
    else Overtakers(actions[..|actions| - 1], m, due) + if Overtakes(actions[|actions| - 1], m, due) then 1 else 0
  }

  /**
    Which requeues overtake: another message lands in front exactly when it is older and requeued at
    the very due time.
   */
  lemma RequeueOvertakesIff(cfg: Config, s: Machine, x: MessageId, at: real, m: MessageId, due: real)
    requires cfg.Valid() && Sane(cfg, s) && Waits(s, m, due) && at >= s.now
    requires x < |s.box| && x != m && s.box[x].sentAt.None? && x !in s.remaining && !IsInFlight(s, x)
    ensures x in Ahead(Step(cfg, s, Requeue(x, at)), m) <==> Overtakes(Requeue(x, at), m, due)
    ensures Overtakes(Requeue(x, at), m, due) ==> at == due
  {
    hide IsBatch, PlanRetry;
  }

  /**
    Enqueueing puts nothing in front of a waiting message, and a requeue at most the message that it
    overtakes with.
   */
  lemma ArrivalsStayBehind(cfg: Config, s: Machine, a: Action, m: MessageId, due: real)
    requires cfg.Valid() && Sane(cfg, s) && Waits(s, m, due) && (a.Enqueue? || (a.Requeue? && a.id != m))
    ensures Waits(Step(cfg, s, a), m, due) && Step(cfg, s, a).flushes == s.flushes
    ensures Ahead(Step(cfg, s, a), m) <= Ahead(s, m) + if Overtakes(a, m, due) then {a.id} else {}
  {
  }

  /** A settled message is delivered, dead or due later, so it is not in front either. */
  lemma SettledStaysBehind(cfg: Config, s: Machine, delivered: bool, at: real, m: MessageId, due: real)
    requires cfg.Valid() && Sane(cfg, s) && Waits(s, m, due)
    ensures var after := Step(cfg, s, Settle(delivered, at));
            Waits(after, m, due) && after.flushes == s.flushes && Ahead(after, m) <= Ahead(s, m)
  {
    if at >= s.now && s.inFlight.Some? {
      RetryIsLater(s.inFlight.value.count, cfg.baseSeconds, cfg.maxSeconds, cfg.maxAttempts, at);
    }
    hide PlanRetry, IsBatch;
  }

  lemma AttemptStaysBehind(cfg: Config, s: Machine, at: real, m: MessageId, due: real)
    requires cfg.Valid() && Sane(cfg, s) && Waits(s, m, due)
    ensures var after := Step(cfg, s, Attempt(at));
            Waits(after, m, due) && after.flushes == s.flushes && Ahead(after, m) <= Ahead(s, m)
  {
    hide IsBatch;
    if s.remaining != [] {
      assert s.remaining[0] in s.remaining;
      assert s.remaining == [s.remaining[0]] + s.remaining[1..];
    }
  }

  ghost function Members(ids: seq<MessageId>): set<MessageId> {
    set x | x in ids
  }

  lemma {:induction false} MembersCount(ids: seq<MessageId>)
    requires forall a, b :: 0 <= a < b < |ids| ==> ids[a] != ids[b]
    ensures |Members(ids)| == |ids|
  {
    if |ids| > 0 {
      var init, last := ids[..|ids| - 1], ids[|ids| - 1];
      MembersCount(init);
      assert ids == init + [last];
      assert Members(ids) == Members(init) + {last};
    }
  }

  /** A flush that passes the message over takes a full batch from in front of it. */
  lemma FlushTakesFromAhead(cfg: Config, s: Machine, batch: seq<MessageId>, at: real, m: MessageId, due: real)
    requires cfg.Valid() && Sane(cfg, s) && Waits(s, m, due) && Quiet(s) && at >= s.now
    requires IsBatch(s.box, at, cfg.batchSize, batch) && m !in batch
    ensures |batch| == cfg.batchSize
    ensures Members(batch) <= Ahead(s, m)
    ensures Ahead(Step(cfg, s, BeginFlush(batch, at)), m) == Ahead(s, m) - Members(batch)
  {
    assert Eligible(s.box[m], at);
    BatchDistinct(s.box, at, cfg.batchSize, batch);
    forall a | 0 <= a < |batch|
      ensures batch[a] in Ahead(s, m)
    {
      assert Before(s.box, batch[a], m);
    }
  }

  lemma SkippedFlushShrinksAhead(cfg: Config, s: Machine, batch: seq<MessageId>, at: real, m: MessageId, due: real)
    requires cfg.Valid() && Sane(cfg, s) && Waits(s, m, due) && Quiet(s) && at >= s.now
    requires IsBatch(s.box, at, cfg.batchSize, batch) && m !in batch
    ensures |Ahead(Step(cfg, s, BeginFlush(batch, at)), m)| + cfg.batchSize == |Ahead(s, m)|
  {
    FlushTakesFromAhead(cfg, s, batch, at, m, due);
    BatchDistinct(s.box, at, cfg.batchSize, batch);
    MembersCount(batch);
    hide IsBatch, Members, Ahead, Step;
    var ahead := Ahead(s, m);
    assert ahead == (ahead - Members(batch)) + Members(batch);
  }

  /** How many messages a number of full flushes takes. */
  function Taken(cfg: Config, flushes: int): int {
    cfg.batchSize * flushes
  }

  lemma TakenNone(cfg: Config)
    ensures Taken(cfg, 0) == 0 && Taken(cfg, 1) == cfg.batchSize
  {
  }

  lemma TakenSum(cfg: Config, before: int, after: int)
    ensures Taken(cfg, after - before) == Taken(cfg, after) - Taken(cfg, before)
  {
    assert cfg.batchSize * (after - before) == cfg.batchSize * after - cfg.batchSize * before;
  }

  lemma FlushShrinksAhead(cfg: Config, s: Machine, batch: seq<MessageId>, at: real, m: MessageId, due: real)
    requires cfg.Valid() && Sane(cfg, s) && Waits(s, m, due)
    ensures var after := Step(cfg, s, BeginFlush(batch, at));
            m in after.remaining
            || (Waits(after, m, due)
                && |Ahead(after, m)| + Taken(cfg, after.flushes - s.flushes) <= |Ahead(s, m)|)
  {
    var after := Step(cfg, s, BeginFlush(batch, at));
    TakenNone(cfg);
    hide IsBatch, Open, DueAt, Taken;
    if at >= s.now && Quiet(s) && IsBatch(s.box, at, cfg.batchSize, batch) {
      if m !in batch {
        SkippedFlushShrinksAhead(cfg, s, batch, at, m, due);
      }
    } else {
      assert after == s.(now := after.now);
      assert Ahead(after, m) == Ahead(s, m);
    }
  }

  /** The message was tried, or requeued itself, which starts a new wait. */
  ghost predicate Ended(s: Machine, m: MessageId) {
    Tried(m) in s.log || Reset(m) in s.log
  }

  /**
    The state of the wait: ended, picked by the current flush, or at least `batchSize` fewer in front
    per flush so far.
   */
  ghost predicate Served(cfg: Config, s: Machine, m: MessageId, due: real, k: nat) {
    || Ended(s, m)
    || m in s.remaining
    || (Waits(s, m, due) && |Ahead(s, m)| + Taken(cfg, s.flushes) <= k)
  }

  lemma PickedIsTried(cfg: Config, s: Machine, a: Action, m: MessageId)
    requires cfg.Valid() && Sane(cfg, s) && m in s.remaining
    ensures m in Step(cfg, s, a).remaining || Ended(Step(cfg, s, a), m)
  {
    hide IsBatch, PlanRetry;
    if a.Attempt? {
      assert s.remaining == [s.remaining[0]] + s.remaining[1..];
      assert (s.log + [Tried(s.remaining[0])])[|s.log|] == Tried(s.remaining[0]);
    }
  }

  lemma LogOnlyGrows(cfg: Config, s: Machine, a: Action, entry: LogEntry)
    requires cfg.Valid() && Sane(cfg, s) && entry in s.log
    ensures entry in Step(cfg, s, a).log
  {
    hide IsBatch, PlanRetry;
  }

  /** A requeue of the waiting message itself is logged, unless it comes too late in the past. */
  lemma OwnRequeueEnds(cfg: Config, s: Machine, a: Action, m: MessageId, due: real)
    requires cfg.Valid() && Sane(cfg, s) && Waits(s, m, due) && a.Requeue? && a.id == m
    ensures Ended(Step(cfg, s, a), m) || Step(cfg, s, a) == s
  {
    hide IsBatch, PlanRetry;
    assert (s.log + [Reset(m)])[|s.log|] == Reset(m);
  }

  lemma InsertedCount(a: set<MessageId>, b: set<MessageId>, x: MessageId, inserted: bool)
    requires a <= b + if inserted then {x} else {}
    ensures |a| <= |b| + if inserted then 1 else 0
  {
    SubsetSize(a, if inserted then b + {x} else b);
    assert x in b ==> b + {x} == b;
  }

  /** The wait has ended, is about to, or goes on with a full batch fewer in front for every flush, up to overtakers. */
  ghost predicate GoesOn(cfg: Config, s: Machine, after: Machine, m: MessageId, due: real, overtakers: nat)
    requires m < |s.box|
  {
    || m in after.remaining
    || Ended(after, m)
    || (Waits(after, m, due)
        && |Ahead(after, m)| + Taken(cfg, after.flushes - s.flushes) <= |Ahead(s, m)| + overtakers)
  }

  lemma NoFlushGoesOn(cfg: Config, s: Machine, after: Machine, m: MessageId, due: real, overtakers: nat)
    requires m < |s.box| && Waits(after, m, due) && after.flushes == s.flushes
    requires |Ahead(after, m)| <= |Ahead(s, m)| + overtakers
    ensures GoesOn(cfg, s, after, m, due, overtakers)
  {
    TakenNone(cfg);
  }

  lemma OwnRequeueGoesOn(cfg: Config, s: Machine, a: Action, m: MessageId, due: real)
    requires cfg.Valid() && Sane(cfg, s) && Waits(s, m, due) && a.Requeue? && a.id == m
    ensures GoesOn(cfg, s, Step(cfg, s, a), m, due, 0)
  {
    OwnRequeueEnds(cfg, s, a, m, due);
    assert m < |s.box|;
    hide Step, Ahead, Waits;
    if Step(cfg, s, a) == s {
      NoFlushGoesOn(cfg, s, s, m, due, 0);
    }
  }

  lemma WaitStep(cfg: Config, s: Machine, a: Action, m: MessageId, due: real)
    requires cfg.Valid() && Sane(cfg, s) && Waits(s, m, due)
    ensures m < |s.box| && GoesOn(cfg, s, Step(cfg, s, a), m, due, if Overtakes(a, m, due) then 1 else 0)
  {
    var after := Step(cfg, s, a);
    assert m < |s.box|;
    hide Step, Ahead, Taken, Open, DueAt, IsInFlight;
    match a {
      case BeginFlush(batch, at) => FlushShrinksAhead(cfg, s, batch, at, m, due);
      case Attempt(at) =>
        AttemptStaysBehind(cfg, s, at, m, due);
        SubsetSize(Ahead(after, m), Ahead(s, m));
        NoFlushGoesOn(cfg, s, after, m, due, 0);
      case Settle(delivered, at) =>
        SettledStaysBehind(cfg, s, delivered, at, m, due);
        SubsetSize(Ahead(after, m), Ahead(s, m));
        NoFlushGoesOn(cfg, s, after, m, due, 0);
      case Enqueue(_) =>
        ArrivalsStayBehind(cfg, s, a, m, due);
        SubsetSize(Ahead(after, m), Ahead(s, m));
        NoFlushGoesOn(cfg, s, after, m, due, 0);
      case Requeue(id, _) =>
        if id == m {
          OwnRequeueGoesOn(cfg, s, a, m, due);
        } else {
          ArrivalsStayBehind(cfg, s, a, m, due);
          InsertedCount(Ahead(after, m), Ahead(s, m), id, Overtakes(a, m, due));
          NoFlushGoesOn(cfg, s, after, m, due, if Overtakes(a, m, due) then 1 else 0);
        }
    }
  }

  lemma StepServes(cfg: Config, s: Machine, a: Action, m: MessageId, due: real, k: nat)
    requires cfg.Valid() && Sane(cfg, s) && Served(cfg, s, m, due, k)
    ensures Served(cfg, Step(cfg, s, a), m, due, k + if Overtakes(a, m, due) then 1 else 0)
  {
    hide Step, Ahead, Waits;
    if Tried(m) in s.log {
      LogOnlyGrows(cfg, s, a, Tried(m));
    } else if Reset(m) in s.log {
      LogOnlyGrows(cfg, s, a, Reset(m));
    } else if m in s.remaining {
      PickedIsTried(cfg, s, a, m);
    } else {
      WaitStep(cfg, s, a, m, due);
      var after := Step(cfg, s, a);
      TakenSum(cfg, s.flushes, after.flushes);
      hide Taken;
    }
  }

  lemma {:induction false} ServedInEveryRun(cfg: Config, s: Machine, actions: seq<Action>, m: MessageId, due: real)
    requires cfg.Valid() && Sane(cfg, s) && Waits(s, m, due) && s.flushes == 0
    ensures Served(cfg, Run(cfg, s, actions), m, due, |Ahead(s, m)| + Overtakers(actions, m, due))
  {
    assert m < |s.box|;
    hide Step, Ahead, Waits, Overtakes, IsBatch;
    if |actions| == 0 {
      TakenNone(cfg);
      assert Run(cfg, s, actions) == s && Overtakers(actions, m, due) == 0;
    } else {
      var init, last := actions[..|actions| - 1], actions[|actions| - 1];
      ServedInEveryRun(cfg, s, init, m, due);
      hide Served;
      StepServes(cfg, Run(cfg, s, init), last, m, due, |Ahead(s, m)| + Overtakers(init, m, due));
      assert Run(cfg, s, actions) == Step(cfg, Run(cfg, s, init), last);
    }
  }

  lemma FlushesExceed(cfg: Config, flushes: nat, k: nat)
    requires cfg.batchSize >= 1 && flushes >= k / cfg.batchSize + 1
    ensures Taken(cfg, flushes) > k
  {
    var b := cfg.batchSize;
    assert b * (k / b) + k % b == k;
    assert b * flushes >= b * (k / b + 1);
  }

  /**
    Main result: no starvation. Whatever fails, arrives or is requeued in the meantime, a due message
    with k undelivered messages in front of it, overtaken by n requeues, has been tried or requeued
    itself by the time the floor((k + n) / batchSize) + 1-st flush is over. The starting state is any in
    which it waits, with the flush counter and the log started there; a flush that is already under
    way is not counted.
   */
  lemma NoStarvation(cfg: Config, s: Machine, actions: seq<Action>, m: MessageId, due: real)
    requires cfg.Valid() && Sane(cfg, s) && Waits(s, m, due)
    requires s.flushes == 0 && s.log == []
    requires Quiet(Run(cfg, s, actions))
    requires Run(cfg, s, actions).flushes >= (|Ahead(s, m)| + Overtakers(actions, m, due)) / cfg.batchSize + 1
    ensures Tried(m) in Run(cfg, s, actions).log || Reset(m) in Run(cfg, s, actions).log
  {
    assert m < |s.box|;
    hide Run, Ahead, Overtakers, Taken, Waits;
    ServedInEveryRun(cfg, s, actions, m, due);
    FlushesExceed(cfg, Run(cfg, s, actions).flushes, |Ahead(s, m)| + Overtakers(actions, m, due));
  }

  // ---------------------------------------------------------------- the store and the dispatcher

  class OutboxDispatcher {
    const cfg: Config
    var box: Box
    ghost var remaining: seq<MessageId>
    ghost var inFlight: Option<InFlight>
    ghost var now: real
    ghost var flushes: nat
    ghost var log: seq<LogEntry>

    ghost function View(): Machine
      reads this
    {
      Machine(box, remaining, inFlight, now, flushes, log)
    }

    ghost predicate Valid()
      reads this
    {
      cfg.Valid() && Sane(cfg, View())
    }

    constructor (cfg: Config)
      requires cfg.Valid()
      ensures Valid() && this.cfg == cfg && View() == EMPTY_MACHINE
    {
      this.cfg := cfg;
      box, remaining, inFlight, now, flushes, log := [], [], None, 0.0, 0, [];
    }

    method EnqueueOutbox(at: real) returns (id: MessageId)
      requires Valid() && at >= now
      modifies this
      ensures Valid() && View() == Step(cfg, old(View()), Enqueue(at)) && id == |old(box)|
    {
      StepSane(cfg, View(), Enqueue(at));
      id := |box|;
      box := box + [Entry(at, None, 0, None, None, None)];
      now := at;
    }

    method RequeueOutbox(id: MessageId, at: real) returns (requeued: bool)
      requires Valid() && at >= now
      modifies this
      ensures Valid() && View() == Step(cfg, old(View()), Requeue(id, at))
      ensures requeued <==> id < |old(box)| && old(box)[id].sentAt.None?
    {
      StepSane(cfg, View(), Requeue(id, at));
      now := at;
      if id >= |box| || box[id].sentAt.Some? {
        return false;
      }
      box := box[id := box[id].(attempts := 0, lastAttemptAt := None, nextAttemptAt := Some(at), deadAt := None)];
      log := log + [Reset(id)];
      requeued := true;
    }

    /** The start of a flush: fix the batch. */
    method StartFlush(at: real) returns (batch: seq<MessageId>)
      requires Valid() && at >= now && Quiet(View())
      modifies this
      ensures Valid() && View() == Step(cfg, old(View()), BeginFlush(batch, at)) && remaining == batch
      ensures IsBatch(box, at, cfg.batchSize, batch) && box == old(box) && inFlight.None?
      ensures now == at && flushes == old(flushes) + 1
    {
      batch := PendingOutbox(box, cfg.batchSize, at);
      StepSane(cfg, View(), BeginFlush(batch, at));
      hide IsBatch;
      now, remaining, flushes := at, batch, flushes + 1;
    }

    /** The next message of the batch: mark the attempt, then await the post. */
    method StartAttempt(id: MessageId, at: real) returns (count: nat)
      requires Valid() && at >= now && inFlight.None? && remaining != [] && remaining[0] == id
      modifies this
      ensures Valid() && View() == Step(cfg, old(View()), Attempt(at))
      ensures inFlight == Some(InFlight(id, count))
    {
      StepSane(cfg, View(), Attempt(at));
      count := box[id].attempts + 1;
      box := box[id := box[id].(attempts := count, lastAttemptAt := Some(at), nextAttemptAt := None)];
      now, remaining, inFlight, log := at, remaining[1..], Some(InFlight(id, count)), log + [Tried(id)];
    }

    /** The post came back: mark the message as sent, or plan its retry or its dead letter. */
    method FinishAttempt(id: MessageId, count: nat, delivered: bool, at: real)
      requires Valid() && at >= now && inFlight == Some(InFlight(id, count))
      modifies this
      ensures Valid() && View() == Step(cfg, old(View()), Settle(delivered, at))
    {
      StepSane(cfg, View(), Settle(delivered, at));
      if delivered {
        box := box[id := box[id].(sentAt := Some(at), nextAttemptAt := None, deadAt := None)];
        log := log + [Delivered(id)];
      } else {
        var retry := PlanRetry(count, cfg.baseSeconds, cfg.maxSeconds, cfg.maxAttempts, at);
        box := box[id := box[id].(nextAttemptAt := retry.nextAttemptAt, deadAt := retry.deadLetteredAt)];
      }
      now, inFlight := at, None;
    }

    /** One message of a flush, from the attempt to its answer. */
    method TryMessage(id: MessageId, delivered: bool, at: real)
      requires Valid() && at == now && inFlight.None? && remaining != [] && remaining[0] == id && id < |box|
      modifies this
      ensures Valid() && now == at && inFlight.None? && remaining == old(remaining)[1..] && flushes == old(flushes)
      ensures box == old(box)[id := Flushed(cfg, old(box)[id], delivered, at)]
    {
      hide IsBatch, Sane, PlanRetry;
      var count := StartAttempt(id, at);
      FinishAttempt(id, count, delivered, at);
    }

    /** A whole flush that nothing interleaves with; `answers` says which posts succeed. */
    method FlushOnce(answers: MessageId -> bool, at: real) returns (batch: seq<MessageId>, sent: nat)
      requires Valid() && at >= now && Quiet(View())
      modifies this
      ensures Valid() && Quiet(View()) && flushes == old(flushes) + 1
      ensures IsBatch(old(box), at, cfg.batchSize, batch)
      ensures box == FlushedBox(cfg, old(box), batch, answers, at)
      ensures sent == CountSent(batch, answers)
    {
      hide Step;
      batch := StartFlush(at);
      BatchDistinct(box, at, cfg.batchSize, batch);
      ghost var was := box;
      sent := 0;
      MidFlushStart(cfg, was, batch, answers, at);
      hide IsBatch, Sane, MidFlush;
      for i := 0 to |batch|
        invariant Valid() && now == at && inFlight.None? && flushes == old(flushes) + 1
        invariant MidFlush(cfg, was, batch, answers, at, i, box, remaining, sent)
      {
        MidFlushStep(cfg, was, batch, answers, at, i, box, remaining, sent);
        TryMessage(batch[i], answers(batch[i]), at);
        if answers(batch[i]) {
          sent := sent + 1;
        }
      }
      MidFlushEnd(cfg, was, batch, answers, at, box, remaining, sent);
    }
  }

  /** A flush that has tried the first i messages of its batch. */
  ghost predicate MidFlush(cfg: Config, was: Box, batch: seq<MessageId>, answers: MessageId -> bool, at: real, i: nat,
                           box: Box, remaining: seq<MessageId>, sent: nat)
  {
    && cfg.Valid() && i <= |batch| && remaining == batch[i..] && |box| == |was|
    && (forall a :: 0 <= a < |batch| ==> batch[a] < |was|)
    && (forall a, b :: 0 <= a < b < |batch| ==> batch[a] != batch[b])
    && box == FlushedBox(cfg, was, batch[..i], answers, at)
    && sent == CountSent(batch[..i], answers)
  }

  lemma MidFlushStart(cfg: Config, box: Box, batch: seq<MessageId>, answers: MessageId -> bool, at: real)
    requires cfg.Valid() && (forall a :: 0 <= a < |batch| ==> batch[a] < |box|)
    requires forall a, b :: 0 <= a < b < |batch| ==> batch[a] != batch[b]
    ensures MidFlush(cfg, box, batch, answers, at, 0, box, batch, 0)
  {
    assert batch[0..] == batch && batch[..0] == [];
    assert FlushedBox(cfg, box, [], answers, at) == box;
  }

  lemma MidFlushStep(cfg: Config, was: Box, batch: seq<MessageId>, answers: MessageId -> bool, at: real, i: nat,
                     box: Box, remaining: seq<MessageId>, sent: nat)
    requires i < |batch| && MidFlush(cfg, was, batch, answers, at, i, box, remaining, sent)
    ensures cfg.Valid() && remaining != [] && remaining[0] == batch[i] && batch[i] < |box|
    ensures var id := batch[i];
            MidFlush(cfg, was, batch, answers, at, i + 1, box[id := Flushed(cfg, box[id], answers(id), at)],
                     remaining[1..], sent + if answers(id) then 1 else 0)
  {
    var id := batch[i];
    assert id !in batch[..i];
    assert batch[..i + 1] == batch[..i] + [id] && batch[i..][1..] == batch[i + 1..];
    hide Flushed, FlushedBox, CountSent;
    CountSentAppend(batch[..i], id, answers);
    FlushedNext(cfg, was, batch[..i], id, answers, at);
  }

  lemma MidFlushEnd(cfg: Config, was: Box, batch: seq<MessageId>, answers: MessageId -> bool, at: real, box: Box,
                    remaining: seq<MessageId>, sent: nat)
    requires MidFlush(cfg, was, batch, answers, at, |batch|, box, remaining, sent)
    ensures cfg.Valid() && remaining == [] && box == FlushedBox(cfg, was, batch, answers, at)
    ensures sent == CountSent(batch, answers)
  {
    assert batch[..|batch|] == batch;
    hide Flushed, FlushedBox, CountSent;
  }

  /** The outbox after the given messages were each tried once. */
  function FlushedBox(cfg: Config, box: Box, ids: seq<MessageId>, answers: MessageId -> bool, at: real): Box
    requires cfg.Valid()
  {
    seq(|box|, i requires 0 <= i < |box| => if i in ids then Flushed(cfg, box[i], answers(i), at) else box[i])
  }

  lemma FlushedNext(cfg: Config, box: Box, ids: seq<MessageId>, id: MessageId, answers: MessageId -> bool, at: real)
    requires cfg.Valid() && id < |box| && id !in ids
    ensures var before, after := FlushedBox(cfg, box, ids, answers, at), FlushedBox(cfg, box, ids + [id], answers, at);
            before[id] == box[id] && after == before[id := Flushed(cfg, box[id], answers(id), at)]
  {
    hide Flushed;
  }

  /** An entry after one attempt of a flush. */
  function Flushed(cfg: Config, e: Entry, delivered: bool, at: real): Entry
    requires cfg.Valid()
  {
    var tried := Attempted(e, at);
    if delivered then SentEntry(tried, at) else FailedEntry(cfg, tried, tried.attempts, at)
  }

  /** One message of a flush in words: delivered and sent, or one attempt more with a retry or a dead letter. */
  lemma FlushedInWords(cfg: Config, e: Entry, at: real)
    requires cfg.Valid()
    ensures Flushed(cfg, e, true, at) == Entry(e.createdAt, Some(at), e.attempts + 1, Some(at), None, None)
    ensures var f := Flushed(cfg, e, false, at);
            && f.sentAt == e.sentAt && f.attempts == e.attempts + 1 && f.lastAttemptAt == Some(at)
            && (f.deadAt == if e.attempts + 1 >= cfg.maxAttempts then Some(at) else None)
            && (f.nextAttemptAt.Some? <==> e.attempts + 1 < cfg.maxAttempts)
  {
    hide Backoff;
  }

  function CountSent(ids: seq<MessageId>, answers: MessageId -> bool): nat {
    if |ids| == 0 then 0
    else CountSent(ids[..|ids| - 1], answers) + if answers(ids[|ids| - 1]) then 1 else 0
  }

  lemma CountSentAppend(ids: seq<MessageId>, id: MessageId, answers: MessageId -> bool)
    ensures CountSent(ids + [id], answers) == CountSent(ids, answers) + if answers(id) then 1 else 0
  {
    assert (ids + [id])[..|ids|] == ids;
  }
}
