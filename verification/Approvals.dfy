/**
  One-time, intent-bound live approvals. The in-memory repository consumes under a lock; the SQL
  form reads and validates a row first and then updates it only if it is still unconsumed.
 */
module Approvals {
  import opened Domain

  type ApprovalId = nat

  /** SHA-256 of the canonical intent, taken to be collision-free. */
  datatype Fingerprint = Sha256(canonical: OrderIntent)

  datatype Approval = Approval(
    fingerprint: Fingerprint,
    createdBy: string,
    createdAt: int,
    expiresAt: int,
    consumedAt: Option<int>,
    consumedBy: Option<string>)

  type Repository = map<ApprovalId, Approval>

  datatype Refusal = NotFound | AlreadyConsumed | Expired | Mismatch | SameActor

  /** The request of one consumer. */
  datatype Request = Request(id: ApprovalId, intent: OrderIntent, now: int, actor: string, distinct: bool)

  /** The validation in its order of checks. */
  function Validate(approval: Option<Approval>, r: Request): Option<Refusal> {
    if approval.None? then Some(NotFound)
    else if approval.value.consumedAt.Some? then Some(AlreadyConsumed)
    else if approval.value.expiresAt <= r.now then Some(Expired)
    else if approval.value.fingerprint != Sha256(r.intent) then Some(Mismatch)
    else if r.distinct && approval.value.createdBy == r.actor then Some(SameActor)
    else None
  }

  function Lookup(repo: Repository, id: ApprovalId): Option<Approval> {
    if id in repo then Some(repo[id]) else None
  }

  function Stamp(a: Approval, r: Request): Approval {
    a.(consumedAt := Some(r.now), consumedBy := Some(r.actor))
  }

  /** The atomic consumption: validate and stamp. */
  function Consumed(repo: Repository, r: Request): (Repository, Option<Refusal>) {
    var refusal := Validate(Lookup(repo, r.id), r);
    if refusal.None? then (repo[r.id := Stamp(repo[r.id], r)], None) else (repo, refusal)
  }

  /** What a consumed approval vouches for. */
  predicate Vouches(a: Approval, intent: OrderIntent, actor: string, distinct: bool) {
    && a.fingerprint == Sha256(intent)
    && a.consumedAt.Some? && a.consumedAt.value < a.expiresAt
    && a.consumedBy == Some(actor)
    && (distinct ==> a.createdBy != actor)
  }

  /** A granted consumption turns an unconsumed approval into one that vouches for exactly this intent. */
  lemma GrantedConsume(repo: Repository, r: Request)
    requires Consumed(repo, r).1.None?
    ensures r.id in repo && repo[r.id].consumedAt.None?
    ensures var after := Consumed(repo, r).0;
            && after.Keys == repo.Keys
            && Vouches(after[r.id], r.intent, r.actor, r.distinct)
            && after[r.id] == repo[r.id].(consumedAt := Some(r.now), consumedBy := Some(r.actor))
            && (forall id :: id in repo && id != r.id ==> after[id] == repo[id])
            && Consumed(after, r).1 == Some(AlreadyConsumed)
  {
  }

  /**
    A request is granted exactly when the approval exists, is unconsumed and unexpired, was given for
    exactly this intent, and comes from somebody else where that is required.
   */
  lemma GrantedIff(repo: Repository, r: Request)
    ensures Consumed(repo, r).1.None? <==>
              && r.id in repo
              && repo[r.id].consumedAt.None?
              && r.now < repo[r.id].expiresAt
              && repo[r.id].fingerprint == Sha256(r.intent)
              && (r.distinct ==> repo[r.id].createdBy != r.actor)
    ensures Consumed(repo, r).1.Some? ==> Consumed(repo, r).0 == repo
  {
  }

  // ---------------------------------------------------------------- the SQL form

  /** A transaction between its read and its conditional update. */
  datatype Transaction = Transaction(request: Request, row: Approval)

  datatype Table = Table(rows: Repository, open: map<nat, Transaction>, granted: seq<Request>)

  datatype Action =
    | Insert(id: ApprovalId, approval: Approval)
    | Read(txn: nat, request: Request)
    | Update(txn: nat)

  /** The conditional update hits a row only while its consumption stamp is empty. */
  function Step(t: Table, a: Action): Table {
    match a
    case Insert(id, approval) =>
      if id in t.rows || approval.consumedAt.Some? then t else t.(rows := t.rows[id := approval])
    case Read(txn, request) =>
      if txn in t.open || Validate(Lookup(t.rows, request.id), request).Some? then t
      else t.(open := t.open[txn := Transaction(request, t.rows[request.id])])
    case Update(txn) =>
      if txn !in t.open then t
      else
        var r := t.open[txn].request;
        if r.id in t.rows && t.rows[r.id].consumedAt.None?
        then Table(t.rows[r.id := Stamp(t.rows[r.id], r)], t.open - {txn}, t.granted + [r])
        else t.(open := t.open - {txn})
  }

  function Run(t: Table, actions: seq<Action>): Table {
    if |actions| == 0 then t else Step(Run(t, actions[..|actions| - 1]), actions[|actions| - 1])
  }

  /** A row without its stamp. */
  function Terms(a: Approval): Approval {
    a.(consumedAt := None, consumedBy := None)
  }

  /** An open transaction has read a valid, unconsumed row whose terms are still in the table. */
  ghost predicate OpenValid(t: Table) {
    forall txn :: txn in t.open ==>
      var Transaction(r, row) := t.open[txn];
      && r.id in t.rows && Terms(t.rows[r.id]) == Terms(row)
      && Validate(Some(row), r).None?
  }

  /** Grants are for different approvals, each stamped for exactly the granted request. */
  ghost predicate GrantsBacked(t: Table) {
    && (forall i :: 0 <= i < |t.granted| ==>
          && t.granted[i].id in t.rows
          && Vouches(t.rows[t.granted[i].id], t.granted[i].intent, t.granted[i].actor, t.granted[i].distinct)
          && t.rows[t.granted[i].id].consumedAt == Some(t.granted[i].now))
    && (forall i, j :: 0 <= i < j < |t.granted| ==> t.granted[i].id != t.granted[j].id)
  }

  lemma StepKeeps(t: Table, a: Action)
    requires OpenValid(t) && GrantsBacked(t)
    ensures OpenValid(Step(t, a)) && GrantsBacked(Step(t, a))
  {
  }

  /**
    The table makes progress: a new unconsumed row is stored, a valid read opens, and an update of an
    unconsumed row is granted.
   */
  lemma TableProgress(t: Table, id: ApprovalId, approval: Approval, txn: nat, request: Request)
    ensures id !in t.rows && approval.consumedAt.None? ==> Step(t, Insert(id, approval)).rows == t.rows[id := approval]
    ensures id in t.rows || approval.consumedAt.Some? ==> Step(t, Insert(id, approval)) == t
    ensures txn !in t.open && request.id in t.rows && Consumed(t.rows, request).1.None? ==>
              var after := Step(t, Read(txn, request));
              && txn in after.open && after.open[txn].request == request
              && after.rows == t.rows && after.granted == t.granted
    ensures txn in t.open && t.open[txn].request.id in t.rows ==>
              var after, r := Step(t, Update(txn)), t.open[txn].request;
              && txn !in after.open
              && after.granted == (if t.rows[r.id].consumedAt.None? then t.granted + [r] else t.granted)
  {
  }

  const EMPTY_TABLE := Table(map[], map[], [])

  /**
    Main result: under every interleaving of inserts, reads and conditional updates by any number
    of consumers, no approval is granted twice, and each grant's approval is stamped for exactly
    its intent and actor, unexpired at the stamp and by a distinct actor where that is required.
   */
  lemma {:induction false} NoDoubleGrant(actions: seq<Action>)
    ensures OpenValid(Run(EMPTY_TABLE, actions)) && GrantsBacked(Run(EMPTY_TABLE, actions))
    ensures var t := Run(EMPTY_TABLE, actions);
            && (forall i, j :: 0 <= i < j < |t.granted| ==> t.granted[i].id != t.granted[j].id)
            && (forall i :: 0 <= i < |t.granted| ==>
                  && var r := t.granted[i];
                  && r.id in t.rows
                  && var a := t.rows[r.id];
                  && a.fingerprint == Sha256(r.intent) && a.consumedBy == Some(r.actor) && a.consumedAt == Some(r.now)
                  && r.now < a.expiresAt && (r.distinct ==> a.createdBy != r.actor))
  {
    if |actions| > 0 {
      NoDoubleGrant(actions[..|actions| - 1]);
      StepKeeps(Run(EMPTY_TABLE, actions[..|actions| - 1]), actions[|actions| - 1]);
    }
  }

  /**
    The conditional update refines the atomic consumption: at the moment of the update it does to
    the rows exactly what consuming under a lock would do, and is granted exactly when that is.
   */
  lemma UpdateRefinesConsume(t: Table, txn: nat)
    requires OpenValid(t) && txn in t.open
    ensures var r := t.open[txn].request;
            && Step(t, Update(txn)).rows == Consumed(t.rows, r).0
            && (Step(t, Update(txn)).granted == t.granted + [r] <==> Consumed(t.rows, r).1.None?)
  {
    var Transaction(r, row) := t.open[txn];
    assert Terms(t.rows[r.id]) == Terms(row);
    assert t.granted + [r] != t.granted;
  }

  // ---------------------------------------------------------------- the in-memory repository

  class ApprovalRepository {
    var items: Repository
    var nextId: ApprovalId

    /** Identifiers that were never handed out are not in use. */
    ghost predicate Valid()
      reads this
    {
      forall id :: id in items ==> id < nextId
    }

    constructor ()
      ensures Valid() && items == map[] && nextId == 0
    {
      items, nextId := map[], 0;
    }

    method Create(intent: OrderIntent, createdBy: string, ttlSeconds: nat, now: int) returns (id: ApprovalId)
      requires Valid()
      modifies this
      ensures Valid() && id == old(nextId) && id !in old(items) && nextId == id + 1
      ensures items == old(items)[id := Approval(Sha256(intent), createdBy, now, now + ttlSeconds, None, None)]
    {
      id := nextId;
      items := items[id := Approval(Sha256(intent), createdBy, now, now + ttlSeconds, None, None)];
      nextId := nextId + 1;
    }

    method Consume(r: Request) returns (refusal: Option<Refusal>)
      requires Valid()
      modifies this`items
      ensures Valid()
      ensures (items, refusal) == Consumed(old(items), r)
    {
      var approval := Lookup(items, r.id);
      refusal := Validate(approval, r);
      if refusal.None? {
        items := items[r.id := approval.value.(consumedAt := Some(r.now), consumedBy := Some(r.actor))];
      }
    }
  }
}
