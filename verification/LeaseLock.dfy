/**
  The distributed lock: a key set only if absent, with a time to live, and released by a script
  that deletes it only if it still holds the caller's token. Any number of processes contend, and
  leases expire under them.
 */
module LeaseLock {
  import opened Domain

  type Process = nat
  type Token = nat

  datatype Lease = Lease(token: Token, expiresAt: real)

  /** A process inside the lock, with its token and the moment it got in. */
  datatype Holder = Holder(token: Token, acquiredAt: real)

  datatype State = State(now: real, key: Option<Lease>, inside: map<Process, Holder>, nextToken: Token)

  datatype Action =
    | Wait(seconds: real)
    | TryAcquire(process: Process)
    | Leave(process: Process)

  /** The key as the server sees it: an expired one is gone. */
  function Visible(s: State): Option<Lease> {
    if s.key.Some? && s.now < s.key.value.expiresAt then s.key else None
  }

  /** The release script: compare the token, then delete. */
  function Released(s: State, token: Token): Option<Lease> {
    if Visible(s).Some? && s.key.value.token == token then None else Visible(s)
  }

  function Step(ttl: real, s: State, a: Action): State {
    match a
    case Wait(seconds) => if seconds <= 0.0 then s else s.(now := s.now + seconds)
    case TryAcquire(p) =>
      if p in s.inside || Visible(s).Some? then s.(nextToken := s.nextToken + 1)
      else State(s.now, Some(Lease(s.nextToken, s.now + ttl)), s.inside[p := Holder(s.nextToken, s.now)],
                 s.nextToken + 1)
    case Leave(p) =>
      if p !in s.inside then s
      else s.(key := Released(s, s.inside[p].token), inside := s.inside - {p})
  }

  function Run(ttl: real, s: State, actions: seq<Action>): State {
    if |actions| == 0 then s else Step(ttl, Run(ttl, s, actions[..|actions| - 1]), actions[|actions| - 1])
  }

  predicate Outlived(ttl: real, s: State, p: Process)
    requires p in s.inside
  {
    s.now >= s.inside[p].acquiredAt + ttl
  }

  /** Whoever has not outlived its lease holds the key under its own token, and tokens are never reused. */
  ghost predicate Leased(ttl: real, s: State) {
    && (forall p :: p in s.inside ==>
          s.inside[p].token < s.nextToken
          && (Outlived(ttl, s, p) || s.key == Some(Lease(s.inside[p].token, s.inside[p].acquiredAt + ttl))))
    && (forall p, q :: p in s.inside && q in s.inside && p != q ==> s.inside[p].token != s.inside[q].token)
    && (s.key.Some? ==> s.key.value.token < s.nextToken)
  }

  lemma AcquireLeased(ttl: real, s: State, p: Process)
    requires ttl > 0.0 && Leased(ttl, s)
    ensures Leased(ttl, Step(ttl, s, TryAcquire(p)))
  {
  }

  lemma LeaveLeased(ttl: real, s: State, p: Process)
    requires ttl > 0.0 && Leased(ttl, s)
    ensures Leased(ttl, Step(ttl, s, Leave(p)))
  {
  }

  lemma StepLeased(ttl: real, s: State, a: Action)
    requires ttl > 0.0 && Leased(ttl, s)
    ensures Leased(ttl, Step(ttl, s, a))
  {
    match a {
      case Wait(_) =>
      case TryAcquire(p) => AcquireLeased(ttl, s, p);
      case Leave(p) => LeaveLeased(ttl, s, p);
    }
  }

  const FREE := State(0.0, None, map[], 0)

  lemma {:induction false} RunLeased(ttl: real, actions: seq<Action>)
    requires ttl > 0.0
    ensures Leased(ttl, Run(ttl, FREE, actions))
  {
    if |actions| > 0 {
      RunLeased(ttl, actions[..|actions| - 1]);
      StepLeased(ttl, Run(ttl, FREE, actions[..|actions| - 1]), actions[|actions| - 1]);
    }
  }

  /** Main result: in every run two processes are inside at once only if one of them has outlived its lease. */
  lemma MutualExclusionWithinLease(ttl: real, actions: seq<Action>, p: Process, q: Process)
    requires ttl > 0.0 && p != q
    requires p in Run(ttl, FREE, actions).inside && q in Run(ttl, FREE, actions).inside
    ensures var s := Run(ttl, FREE, actions);
            s.now >= s.inside[p].acquiredAt + ttl || s.now >= s.inside[q].acquiredAt + ttl
  {
    RunLeased(ttl, actions);
  }

  /**
    Main result: in every run, one process leaving, expired or not, never removes the key of another
    that is within its lease.
   */
  lemma ReleaseSparesOthers(ttl: real, actions: seq<Action>, p: Process, q: Process)
    requires ttl > 0.0 && p != q
    requires q in Run(ttl, FREE, actions).inside
    requires Run(ttl, FREE, actions).now < Run(ttl, FREE, actions).inside[q].acquiredAt + ttl
    ensures var s := Run(ttl, FREE, actions);
            var after := Step(ttl, s, Leave(p));
            after.key == s.key && s.key == Some(Lease(s.inside[q].token, s.inside[q].acquiredAt + ttl))
            && q in after.inside
  {
    RunLeased(ttl, actions);
  }

  /** A contender gets in exactly when there is no key or its lease is over, and then holds the key for a full lease. */
  lemma AcquiresIff(ttl: real, s: State, p: Process)
    requires p !in s.inside
    ensures var after := Step(ttl, s, TryAcquire(p));
            && after.now == s.now
            && (p in after.inside <==> s.key.None? || s.key.value.expiresAt <= s.now)
            && (p in after.inside ==>
                  && after.inside[p].acquiredAt == s.now && after.key == Some(Lease(after.inside[p].token, s.now + ttl))
                  && forall q :: q != p ==> (q in after.inside <==> q in s.inside))
            && (p !in after.inside ==> after.inside == s.inside && after.key == s.key)
  {
  }

  /**
    Main result: in every run, a process that leaves within its lease frees the lock, and the next
    contender gets in.
   */
  lemma LeavingFreesTheLock(ttl: real, actions: seq<Action>, p: Process, next: Process)
    requires ttl > 0.0 && p in Run(ttl, FREE, actions).inside && next !in Run(ttl, FREE, actions).inside
    requires Run(ttl, FREE, actions).now < Run(ttl, FREE, actions).inside[p].acquiredAt + ttl
    ensures var after := Step(ttl, Run(ttl, FREE, actions), Leave(p));
            && p !in after.inside && after.key.None?
            && next in Step(ttl, after, TryAcquire(next)).inside
  {
    RunLeased(ttl, actions);
    AcquiresIff(ttl, Step(ttl, Run(ttl, FREE, actions), Leave(p)), next);
  }

  /** Time only moves when it is waited for, and by as much. */
  lemma TimeMoves(ttl: real, s: State, a: Action)
    ensures Step(ttl, s, a).now == s.now + if a.Wait? && a.seconds > 0.0 then a.seconds else 0.0
    ensures a.Wait? ==> Step(ttl, s, a) == s.(now := Step(ttl, s, a).now)
  {
  }

  // ---------------------------------------------------------------- the lock server's key

  class LockKey {
    var key: Option<Lease>

    /** `SET key token NX EX ttl`. */
    method SetIfAbsent(token: Token, ttl: real, now: real) returns (acquired: bool)
      modifies this
      ensures acquired <==> !(old(key).Some? && now < old(key).value.expiresAt)
      ensures key == if acquired then Some(Lease(token, now + ttl)) else old(key)
      ensures forall s: State, p: Process ::
                s.key == old(key) && s.now == now && s.nextToken == token && p !in s.inside ==>
                var after := Step(ttl, s, TryAcquire(p)); after.key == key && (p in after.inside <==> acquired)
    {
      acquired := key.None? || key.value.expiresAt <= now;
      if acquired {
        key := Some(Lease(token, now + ttl));
      }
    }

    /** The release script. */
    method Release(token: Token, now: real, ghost ttl: real) returns (deleted: bool)
      modifies this
      ensures forall s: State :: s.key == old(key) && s.now == now ==> key == Released(s, token)
      ensures forall s: State, p: Process ::
                s.key == old(key) && s.now == now && p in s.inside && s.inside[p].token == token ==>
                key == Step(ttl, s, Leave(p)).key
      ensures deleted <==> old(key).Some? && now < old(key).value.expiresAt && old(key).value.token == token
    {
      deleted := false;
      if key.Some? && key.value.expiresAt <= now {
        key := None;
      }
      if key.Some? && key.value.token == token {
        key := None;
        deleted := true;
      }
    }
  }
}
