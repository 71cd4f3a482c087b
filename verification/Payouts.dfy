/**
 * Creating payouts under concurrent requests: a look-up and an insert in one transaction over two unique indexes,
 * (merchant, idempotency key) and reference, and a second look-up outside it when the first index refuses the insert.
 */
module Payouts {

  /** The row id is generated by the database; the number of the inserting request stands for it. */
  datatype Payout = Payout(id: nat, merchantId: string, idempotencyKey: string, reference: string)

  datatype Target = IdempotencyIndex | ReferenceIndex

  datatype Phase =
    | Begun
    | NotFound
    | Holding                    // row inserted, not committed
    | Refused(target: Target)    // unique-constraint error, transaction rolled back
    | Returned(id: nat)
    | Conflict                   // reference already exists
    | Thrown

  datatype Request = Request(merchantId: string, idempotencyKey: string, reference: string, phase: Phase)

  datatype State = State(payouts: seq<Payout>, requests: seq<Request>)

  datatype Event =
    | Arrive(merchantId: string, idempotencyKey: string, reference: string)
    | LookUp(request: nat)
    | Insert(request: nat, reported: Target)   // the index reported when both refuse
    | CommitTx(request: nat)
    | Recover(request: nat)
    | Abort(request: nat)

  predicate SameKey(p: Payout, r: Request) {
    p.merchantId == r.merchantId && p.idempotencyKey == r.idempotencyKey
  }

  /** findFirst by merchant and key, over committed rows. */
  function FindByKey(payouts: seq<Payout>, r: Request): (i: nat)
    ensures i <= |payouts| && (i < |payouts| ==> SameKey(payouts[i], r))
    ensures forall j :: 0 <= j < i ==> !SameKey(payouts[j], r)
  {
    if payouts == [] || SameKey(payouts[0], r) then 0 else 1 + FindByKey(payouts[1..], r)
  }

  predicate KeyTaken(s: State, r: Request) {
    FindByKey(s.payouts, r) < |s.payouts|
  }

  predicate ReferenceTaken(s: State, r: Request) {
    exists j :: 0 <= j < |s.payouts| && s.payouts[j].reference == r.reference
  }

  predicate Clash(a: Request, b: Request) {
    (a.merchantId == b.merchantId && a.idempotencyKey == b.idempotencyKey) || a.reference == b.reference
  }

  predicate Blocked(s: State, i: nat)
    requires i < |s.requests|
  {
    exists j :: 0 <= j < |s.requests| && j != i && s.requests[j].phase.Holding? && Clash(s.requests[j], s.requests[i])
  }

  function At(s: State, i: nat, phase: Phase): State
    requires i < |s.requests|
  {
    s.(requests := s.requests[i := s.requests[i].(phase := phase)])
  }

  function Created(s: State, i: nat): State
    requires i < |s.requests|
  {
    var r := s.requests[i];
    At(s, i, Returned(i)).(payouts := s.payouts + [Payout(i, r.merchantId, r.idempotencyKey, r.reference)])
  }

  predicate Finished(r: Request) {
    r.phase.Returned? || r.phase.Conflict? || r.phase.Thrown?
  }

  function Step(s: State, e: Event): State {
    if e.Arrive? then s.(requests := s.requests + [Request(e.merchantId, e.idempotencyKey, e.reference, Begun)])
    else if e.request >= |s.requests| then s
    else
      var i, r := e.request, s.requests[e.request];
      match e
      case LookUp(_) =>
        if !r.phase.Begun? then s
        else if KeyTaken(s, r) then At(s, i, Returned(s.payouts[FindByKey(s.payouts, r)].id))
        else At(s, i, NotFound)
      case Insert(_, reported) =>
        if !r.phase.NotFound? then s
        else if KeyTaken(s, r) && ReferenceTaken(s, r) then At(s, i, Refused(reported))
        else if KeyTaken(s, r) then At(s, i, Refused(IdempotencyIndex))
        else if ReferenceTaken(s, r) then At(s, i, Refused(ReferenceIndex))
        else if Blocked(s, i) then s
        else At(s, i, Holding)
      case CommitTx(_) => if r.phase.Holding? then Created(s, i) else s
      case Recover(_) =>
        if !r.phase.Refused? then s
        else if r.phase.target.ReferenceIndex? then At(s, i, Conflict)
        else if KeyTaken(s, r) then At(s, i, Returned(s.payouts[FindByKey(s.payouts, r)].id))
        else At(s, i, Thrown)
      case Abort(_) => if Finished(r) then s else At(s, i, Thrown)
  }

  function Run(s: State, events: seq<Event>): State
    decreases |events|
  {
    if events == [] then s else Run(Step(s, events[0]), events[1..])
  }

  const EMPTY := State([], [])

  /** Both indexes are unique over committed rows, and an open insert clashes with no row and no other open insert. */
  ghost predicate IndexInv(s: State) {
    && (forall a, b :: 0 <= a < b < |s.payouts| ==>
          s.payouts[a].reference != s.payouts[b].reference
          && (|| s.payouts[a].merchantId != s.payouts[b].merchantId
              || s.payouts[a].idempotencyKey != s.payouts[b].idempotencyKey))
    && (forall i :: 0 <= i < |s.requests| && s.requests[i].phase.Holding? ==>
          !KeyTaken(s, s.requests[i]) && !ReferenceTaken(s, s.requests[i]))
    && (forall i, j :: 0 <= i < j < |s.requests| && s.requests[i].phase.Holding? && s.requests[j].phase.Holding? ==>
          !Clash(s.requests[i], s.requests[j]))
  }

  /** A payout handed to a caller is a committed row of the caller's own merchant and key. */
  ghost predicate Backed(s: State, r: Request)
    requires r.phase.Returned?
  {
    exists a :: 0 <= a < |s.payouts| && s.payouts[a].id == r.phase.id && SameKey(s.payouts[a], r)
  }

  ghost predicate ReplyInv(s: State) {
    && (forall i :: 0 <= i < |s.requests| && s.requests[i].phase.Returned? ==> Backed(s, s.requests[i]))
    && (forall i :: 0 <= i < |s.requests| && s.requests[i].phase == Refused(IdempotencyIndex) ==>
          KeyTaken(s, s.requests[i]))
    && (forall i :: 0 <= i < |s.requests| && s.requests[i].phase == Refused(ReferenceIndex) ==>
          ReferenceTaken(s, s.requests[i]))
    && (forall i :: 0 <= i < |s.requests| && s.requests[i].phase.Conflict? ==> ReferenceTaken(s, s.requests[i]))
  }

  ghost predicate Admissible(s: State, i: nat, phase: Phase)
    requires i < |s.requests|
  {
    var r := s.requests[i];
    && !Finished(r)
    && (phase.Holding? ==> !KeyTaken(s, r) && !ReferenceTaken(s, r) && !Blocked(s, i))
    && (phase.Returned? ==> Backed(s, r.(phase := phase)))
    && (phase == Refused(IdempotencyIndex) ==> KeyTaken(s, r))
    && (phase == Refused(ReferenceIndex) || phase.Conflict? ==> ReferenceTaken(s, r))
  }

  lemma TakenIgnoresPhase(s: State, t: State, a: Request, b: Request)
    requires a.merchantId == b.merchantId && a.idempotencyKey == b.idempotencyKey && a.reference == b.reference
    requires s.payouts <= t.payouts
    ensures KeyTaken(s, a) ==> KeyTaken(t, b)
    ensures ReferenceTaken(s, a) ==> ReferenceTaken(t, b)
    ensures s.payouts == t.payouts ==>
      (KeyTaken(s, a) <==> KeyTaken(t, b)) && (ReferenceTaken(s, a) <==> ReferenceTaken(t, b))
  {
    if KeyTaken(s, a) {
      assert SameKey(t.payouts[FindByKey(s.payouts, a)], b);
    }
    if KeyTaken(t, b) && s.payouts == t.payouts {
      assert SameKey(s.payouts[FindByKey(t.payouts, b)], a);
    }
    if ReferenceTaken(s, a) {
      var j :| 0 <= j < |s.payouts| && s.payouts[j].reference == a.reference;
      assert t.payouts[j].reference == b.reference;
    }
  }

  lemma AtKeepsIndex(s: State, i: nat, phase: Phase)
    requires i < |s.requests| && IndexInv(s) && Admissible(s, i, phase)
    ensures IndexInv(At(s, i, phase))
  {
    var t := At(s, i, phase);
    forall j | 0 <= j < |t.requests| && t.requests[j].phase.Holding?
      ensures !KeyTaken(t, t.requests[j]) && !ReferenceTaken(t, t.requests[j])
    {
      TakenIgnoresPhase(s, t, s.requests[j], t.requests[j]);
    }
  }

  /** Replies and refusals stay justified while rows are only added. */
  lemma RowsAddedKeepReply(s: State, t: State, a: Request, b: Request)
    requires a == b && s.payouts <= t.payouts
    ensures a.phase.Returned? && Backed(s, a) ==> Backed(t, b)
  {
    if a.phase.Returned? && Backed(s, a) {
      var x :| 0 <= x < |s.payouts| && s.payouts[x].id == a.phase.id && SameKey(s.payouts[x], a);
      assert t.payouts[x] == s.payouts[x];
    }
  }

  lemma AtKeepsReplies(s: State, i: nat, phase: Phase)
    requires i < |s.requests| && ReplyInv(s) && Admissible(s, i, phase)
    ensures ReplyInv(At(s, i, phase))
  {
    var t := At(s, i, phase);
    forall j | 0 <= j < |t.requests|
      ensures t.requests[j].phase.Returned? ==> Backed(t, t.requests[j])
      ensures t.requests[j].phase == Refused(IdempotencyIndex) ==> KeyTaken(t, t.requests[j])
      ensures t.requests[j].phase == Refused(ReferenceIndex) || t.requests[j].phase.Conflict? ==>
        ReferenceTaken(t, t.requests[j])
    {
      TakenIgnoresPhase(s, t, s.requests[j], t.requests[j]);
    }
  }

  lemma CreatedKeepsIndex(s: State, i: nat)
    requires i < |s.requests| && IndexInv(s) && s.requests[i].phase.Holding?
    ensures IndexInv(Created(s, i))
  {
    var t, r := Created(s, i), s.requests[i];
    forall a | 0 <= a < |s.payouts|
      ensures s.payouts[a].reference != r.reference && !SameKey(s.payouts[a], r)
    {
      assert !ReferenceTaken(s, r) && !KeyTaken(s, r);
    }
    forall j | 0 <= j < |t.requests| && t.requests[j].phase.Holding?
      ensures !KeyTaken(t, t.requests[j]) && !ReferenceTaken(t, t.requests[j])
    {
      assert j != i && t.requests[j] == s.requests[j] && !Clash(r, s.requests[j]);
      assert !KeyTaken(s, s.requests[j]) && !ReferenceTaken(s, s.requests[j]);
      assert !SameKey(t.payouts[|s.payouts|], t.requests[j]);
    }
  }

  lemma CreatedKeepsReplies(s: State, i: nat)
    requires i < |s.requests| && ReplyInv(s) && s.requests[i].phase.Holding?
    ensures ReplyInv(Created(s, i))
  {
    var t := Created(s, i);
    forall j | 0 <= j < |t.requests|
      ensures t.requests[j].phase.Returned? ==> Backed(t, t.requests[j])
      ensures t.requests[j].phase == Refused(IdempotencyIndex) ==> KeyTaken(t, t.requests[j])
      ensures t.requests[j].phase == Refused(ReferenceIndex) || t.requests[j].phase.Conflict? ==>
        ReferenceTaken(t, t.requests[j])
    {
      if j == i {
        assert t.payouts[|s.payouts|].id == i && SameKey(t.payouts[|s.payouts|], t.requests[i]);
      } else {
        RowsAddedKeepReply(s, t, s.requests[j], t.requests[j]);
        TakenIgnoresPhase(s, t, s.requests[j], t.requests[j]);
      }
    }
  }

  lemma StepIsAdmissible(s: State, e: Event)
    requires ReplyInv(s) && !e.Arrive? && !e.CommitTx? && Step(s, e) != s
    ensures e.request < |s.requests| && e.request < |Step(s, e).requests|
    ensures Step(s, e) == At(s, e.request, Step(s, e).requests[e.request].phase)
    ensures Admissible(s, e.request, Step(s, e).requests[e.request].phase)
    ensures e.Recover? ==> !Step(s, e).requests[e.request].phase.Thrown?
  {
    var r := s.requests[e.request];
    if KeyTaken(s, r) {
      var a := FindByKey(s.payouts, r);
      assert Backed(s, r.(phase := Returned(s.payouts[a].id))) by {
        assert SameKey(s.payouts[a], r.(phase := Returned(s.payouts[a].id)));
      }
    }
  }

  lemma ArriveKeeps(s: State, e: Event)
    requires IndexInv(s) && ReplyInv(s) && e.Arrive?
    ensures IndexInv(Step(s, e)) && ReplyInv(Step(s, e))
  {
    var t := Step(s, e);
    assert t.payouts == s.payouts && forall j :: 0 <= j < |s.requests| ==> t.requests[j] == s.requests[j];
    forall j | 0 <= j < |s.requests| && s.requests[j].phase.Returned?
      ensures Backed(t, t.requests[j])
    {
      RowsAddedKeepReply(s, t, s.requests[j], t.requests[j]);
    }
  }

  lemma StepKeeps(s: State, e: Event)
    requires IndexInv(s) && ReplyInv(s)
    ensures IndexInv(Step(s, e)) && ReplyInv(Step(s, e))
  {
    hide IndexInv, ReplyInv;
    if Step(s, e) != s {
      if e.Arrive? {
        ArriveKeeps(s, e);
      } else if e.CommitTx? {
        CreatedKeepsIndex(s, e.request);
        CreatedKeepsReplies(s, e.request);
      } else {
        StepIsAdmissible(s, e);
        hide Step;
        AtKeepsIndex(s, e.request, Step(s, e).requests[e.request].phase);
        AtKeepsReplies(s, e.request, Step(s, e).requests[e.request].phase);
      }
    }
  }

  lemma {:induction false} RunKeeps(s: State, events: seq<Event>)
    requires IndexInv(s) && ReplyInv(s)
    ensures IndexInv(Run(s, events)) && ReplyInv(Run(s, events))
    decreases |events|
  {
    if events != [] {
      StepKeeps(s, events[0]);
      RunKeeps(Step(s, events[0]), events[1..]);
    }
  }

  /** Under any interleaving a merchant's idempotency key names at most one payout, and so does a reference. */
  lemma OnePayoutPerKey(events: seq<Event>, a: nat, b: nat)
    requires var s := Run(EMPTY, events); a < |s.payouts| && b < |s.payouts| && a != b
    ensures var s := Run(EMPTY, events);
      && (|| s.payouts[a].merchantId != s.payouts[b].merchantId
          || s.payouts[a].idempotencyKey != s.payouts[b].idempotencyKey)
      && s.payouts[a].reference != s.payouts[b].reference
  {
    RunKeeps(EMPTY, events);
  }

  /** All callers of one merchant and key that get an answer get the same payout. */
  lemma RepliesAgree(events: seq<Event>, i: nat, j: nat)
    requires var s := Run(EMPTY, events);
      && i < |s.requests| && j < |s.requests|
      && s.requests[i].merchantId == s.requests[j].merchantId
      && s.requests[i].idempotencyKey == s.requests[j].idempotencyKey
      && s.requests[i].phase.Returned? && s.requests[j].phase.Returned?
    ensures var s := Run(EMPTY, events); s.requests[i].phase.id == s.requests[j].phase.id
  {
    var s := Run(EMPTY, events);
    RunKeeps(EMPTY, events);
    assert Backed(s, s.requests[i]) && Backed(s, s.requests[j]);
    var a :| 0 <= a < |s.payouts| && s.payouts[a].id == s.requests[i].phase.id && SameKey(s.payouts[a], s.requests[i]);
    var b :| 0 <= b < |s.payouts| && s.payouts[b].id == s.requests[j].phase.id && SameKey(s.payouts[b], s.requests[j]);
    assert a == b;
  }

  /** A refused insert never ends in a raw database error: the second look-up always finds the row that refused it. */
  lemma RecoveryAnswers(events: seq<Event>, i: nat)
    requires var s := Run(EMPTY, events); i < |s.requests| && s.requests[i].phase.Refused?
    ensures var s := Run(EMPTY, events);
      var t := Step(s, Recover(i));
      i < |t.requests|
        && (t.requests[i].phase.Returned? || (t.requests[i].phase.Conflict? && ReferenceTaken(s, s.requests[i])))
  {
    var s := Run(EMPTY, events);
    RunKeeps(EMPTY, events);
    if s.requests[i].phase.target.IdempotencyIndex? {
      assert KeyTaken(s, s.requests[i]);
    }
  }

  // ---------- Requests that nobody stands in the way of ----------

  lemma RunOfOne(s: State, e: Event, rest: seq<Event>)
    ensures Run(s, [e] + rest) == Run(Step(s, e), rest)
  {
    hide Step;
    assert ([e] + rest)[1..] == rest;
  }

  /** The request on its way, the n-th, when nothing else moves. */
  function Asked(s: State, r: Request, phase: Phase): State {
    s.(requests := s.requests + [r.(phase := phase)])
  }

  ghost predicate KeyIsFree(s: State, r: Request) {
    forall p :: p in s.payouts ==> p.merchantId != r.merchantId || p.idempotencyKey != r.idempotencyKey
  }

  ghost predicate ReferenceIsFree(s: State, r: Request) {
    forall p :: p in s.payouts ==> p.reference != r.reference
  }

  ghost predicate Unopposed(s: State, r: Request) {
    forall q :: q in s.requests && q.phase.Holding? ==>
      q.reference != r.reference && (q.merchantId != r.merchantId || q.idempotencyKey != r.idempotencyKey)
  }

  lemma FreeIsNotTaken(s: State, r: Request, phase: Phase)
    ensures KeyTaken(Asked(s, r, phase), r.(phase := phase)) <==> !KeyIsFree(s, r)
    ensures ReferenceTaken(Asked(s, r, phase), r.(phase := phase)) <==> !ReferenceIsFree(s, r)
    ensures Unopposed(s, r) ==> !Blocked(Asked(s, r, phase), |s.requests|)
  {
    var t := Asked(s, r, phase);
    var i := FindByKey(s.payouts, r.(phase := phase));
    if i < |s.payouts| {
      assert s.payouts[i] in s.payouts;
    }
    if Unopposed(s, r) {
      forall j | 0 <= j < |t.requests| && j != |s.requests| && t.requests[j].phase.Holding?
        ensures !Clash(t.requests[j], t.requests[|s.requests|])
      {
        assert t.requests[j] in s.requests;
      }
    }
  }

  lemma AskedMoves(s: State, r: Request, a: Phase, b: Phase)
    ensures At(Asked(s, r, a), |s.requests|, b) == Asked(s, r, b)
  {
  }

  lemma AskedToInsert(s: State, r: Request, reported: Target, rest: seq<Event>)
    requires KeyIsFree(s, r)
    ensures var n := |s.requests|;
      Run(s, [Arrive(r.merchantId, r.idempotencyKey, r.reference)] + ([LookUp(n)] + ([Insert(n, reported)] + rest)))
        == Run(Step(Asked(s, r, NotFound), Insert(n, reported)), rest)
  {
    var n := |s.requests|;
    var arrive := Arrive(r.merchantId, r.idempotencyKey, r.reference);
    FreeIsNotTaken(s, r, Begun);
    AskedMoves(s, r, Begun, NotFound);
    hide KeyIsFree, KeyTaken, Run;
    RunOfOne(s, arrive, [LookUp(n)] + ([Insert(n, reported)] + rest));
    assert Step(s, arrive) == Asked(s, r, Begun);
    RunOfOne(Asked(s, r, Begun), LookUp(n), [Insert(n, reported)] + rest);
    assert Step(Asked(s, r, Begun), LookUp(n)) == Asked(s, r, NotFound);
    RunOfOne(Asked(s, r, NotFound), Insert(n, reported), rest);
  }

  /** A request for a key and a reference that are free, with no open insert in its way, creates its own payout. */
  lemma FreshRequestIsPaidOut(s: State, r: Request, reported: Target)
    requires KeyIsFree(s, r) && ReferenceIsFree(s, r) && Unopposed(s, r)
    ensures var n := |s.requests|;
      var after := Run(s, [Arrive(r.merchantId, r.idempotencyKey, r.reference)] + ([LookUp(n)] + ([Insert(n, reported)]
                          + ([CommitTx(n)] + []))));
      && after.requests == s.requests + [r.(phase := Returned(n))]
      && after.payouts == s.payouts + [Payout(n, r.merchantId, r.idempotencyKey, r.reference)]
  {
    var n := |s.requests|;
    AskedToInsert(s, r, reported, [CommitTx(n)] + []);
    FreeIsNotTaken(s, r, NotFound);
    AskedMoves(s, r, NotFound, Holding);
    assert Step(Asked(s, r, NotFound), Insert(n, reported)) == Asked(s, r, Holding) by {
      hide KeyTaken, ReferenceTaken, Blocked, KeyIsFree, ReferenceIsFree, Unopposed, Run;
    }
    RunOfOne(Asked(s, r, Holding), CommitTx(n), []);
    assert Step(Asked(s, r, Holding), CommitTx(n)) == Created(Asked(s, r, Holding), n);
    hide KeyTaken, ReferenceTaken, Blocked, KeyIsFree, ReferenceIsFree, Unopposed;
    assert Asked(s, r, Holding).requests[n := r.(phase := Returned(n))] == s.requests + [r.(phase := Returned(n))];
  }

  lemma RefusedByReference(s: State, r: Request, reported: Target)
    requires KeyIsFree(s, r) && !ReferenceIsFree(s, r)
    ensures Step(Asked(s, r, NotFound), Insert(|s.requests|, reported)) == Asked(s, r, Refused(ReferenceIndex))
  {
    FreeIsNotTaken(s, r, NotFound);
    AskedMoves(s, r, NotFound, Refused(ReferenceIndex));
    hide KeyTaken, ReferenceTaken, Blocked, KeyIsFree, ReferenceIsFree;
  }

  lemma RecoversToConflict(s: State, r: Request)
    ensures Step(Asked(s, r, Refused(ReferenceIndex)), Recover(|s.requests|)) == Asked(s, r, Conflict)
  {
    AskedMoves(s, r, Refused(ReferenceIndex), Conflict);
    hide KeyTaken, ReferenceTaken, Blocked;
  }

  /** A free key with a reference that is taken ends in a conflict and writes nothing. */
  lemma TakenReferenceConflicts(s: State, r: Request, reported: Target)
    requires KeyIsFree(s, r) && !ReferenceIsFree(s, r)
    ensures var n := |s.requests|;
      Run(s, [Arrive(r.merchantId, r.idempotencyKey, r.reference)] + ([LookUp(n)] + ([Insert(n, reported)]
             + ([Recover(n)] + []))))
        == s.(requests := s.requests + [r.(phase := Conflict)])
  {
    var n := |s.requests|;
    hide Step, KeyIsFree, ReferenceIsFree;
    AskedToInsert(s, r, reported, [Recover(n)] + []);
    RefusedByReference(s, r, reported);
    RunOfOne(Asked(s, r, Refused(ReferenceIndex)), Recover(n), []);
    RecoversToConflict(s, r);
  }

  /** A request for a key that has its payout already gets that one, and writes nothing. */
  lemma RepeatedRequestGetsThePayout(s: State, r: Request, a: nat)
    requires IndexInv(s)
    requires a < |s.payouts| && SameKey(s.payouts[a], r)
    ensures Run(s, [Arrive(r.merchantId, r.idempotencyKey, r.reference)] + ([LookUp(|s.requests|)] + []))
         == s.(requests := s.requests + [r.(phase := Returned(s.payouts[a].id))])
  {
    var n := |s.requests|;
    var arrive := Arrive(r.merchantId, r.idempotencyKey, r.reference);
    var found := FindByKey(s.payouts, r.(phase := Begun));
    assert found == a by {
      assert SameKey(s.payouts[a], r.(phase := Begun));
    }
    RunOfOne(s, arrive, [LookUp(n)] + []);
    assert Step(s, arrive) == Asked(s, r, Begun);
    AskedMoves(s, r, Begun, Returned(s.payouts[a].id));
    RunOfOne(Asked(s, r, Begun), LookUp(n), []);
  }
}
