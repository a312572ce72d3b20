/**
 Sequences of requests served one after another by the engine, and what
 holds across them: the state stays well formed, created ids strictly
 increase and are never handed out twice, an id that has left the list never
 returns, and overlap-freedom survives every request except update.
 */
module History {
  import opened Roles
  import opened Engine

  datatype Request =
    | CreateRequest(role: Role, roomId: int, userName: string, startDate: int, endDate: int)
    | ListRequest(role: Role)
    | UpdateRequest(role: Role, bookingId: int, startDate: int, endDate: int)
    | DeleteRequest(role: Role, bookingId: int)

  /** The state after serving one request; listing changes nothing. */
  function Next(s: State, req: Request): State
  {
    match req
    case CreateRequest(role, roomId, userName, startDate, endDate) =>
      Create(s, role, roomId, userName, startDate, endDate).state
    case ListRequest(_) => s
    case UpdateRequest(role, bookingId, startDate, endDate) =>
      Update(s, role, bookingId, startDate, endDate).state
    case DeleteRequest(role, bookingId) => Delete(s, role, bookingId).state
  }

  /** The state after serving `reqs` in order. */
  function Run(s: State, reqs: seq<Request>): State
    decreases |reqs|
  {
    if reqs == [] then s else Run(Next(s, reqs[0]), reqs[1..])
  }

  /** The id handed out by one request: that of a successful create, if any. */
  function IssuedBy(s: State, req: Request): seq<int>
  {
    match req
    case CreateRequest(role, roomId, userName, startDate, endDate) =>
      var r := Create(s, role, roomId, userName, startDate, endDate);
      if r.result.Ok? then [r.result.value.id] else []
    case _ => []
  }

  /** The ids handed out while serving `reqs`, in order. */
  function Issued(s: State, reqs: seq<Request>): seq<int>
    decreases |reqs|
  {
    if reqs == [] then [] else IssuedBy(s, reqs[0]) + Issued(Next(s, reqs[0]), reqs[1..])
  }

  /** One request keeps the state well formed and never lowers the counter. */
  lemma NextKeepsWellFormed(s: State, req: Request)
    requires WellFormed(s)
    ensures WellFormed(Next(s, req))
  {
    match req
    case CreateRequest(role, roomId, userName, startDate, endDate) =>
      CreateKeepsWellFormed(s, role, roomId, userName, startDate, endDate);
    case ListRequest(_) =>
    case UpdateRequest(role, bookingId, startDate, endDate) =>
      if Update(s, role, bookingId, startDate, endDate).result.Ok? {
        UpdateChangesOnlyDates(s, role, bookingId, startDate, endDate);
      }
    case DeleteRequest(role, bookingId) =>
      if Delete(s, role, bookingId).result.Ok? {
        DeleteRemovesExactlyOne(s, role, bookingId);
      }
  }

  /** Every state reachable from a well-formed one is well formed. */
  lemma {:induction false} RunKeepsWellFormed(s: State, reqs: seq<Request>)
    requires WellFormed(s)
    ensures WellFormed(Run(s, reqs))
    decreases |reqs|
  {
    if reqs != [] {
      NextKeepsWellFormed(s, reqs[0]);
      RunKeepsWellFormed(Next(s, reqs[0]), reqs[1..]);
    }
  }

  /** Every state reachable from the start of the service is well formed. */
  lemma ReachableIsWellFormed(reqs: seq<Request>)
    ensures WellFormed(Run(Initial(), reqs))
  {
    RunKeepsWellFormed(Initial(), reqs);
  }

  /** One request hands out at most the current counter and moves it past that id. */
  lemma NextIssues(s: State, req: Request)
    ensures Next(s, req).nextId >= s.nextId
    ensures IssuedBy(s, req) == [] || (IssuedBy(s, req) == [s.nextId] && Next(s, req).nextId == s.nextId + 1)
  {
    if req.UpdateRequest? {
      UpdateKeepsIds(s, req.role, req.bookingId, req.startDate, req.endDate);
    } else if req.DeleteRequest? {
      DeleteKeepsOnlyOld(s, req.role, req.bookingId);
    }
  }

  predicate StrictlyIncreasing(ids: seq<int>)
  {
    forall i, j :: 0 <= i < j < |ids| ==> ids[i] < ids[j]
  }

  predicate AllWithin(ids: seq<int>, lo: int, hi: int)
  {
    forall i :: 0 <= i < |ids| ==> lo <= ids[i] < hi
  }

  /** Putting nothing, or `lo` when every later id is above it, in front of increasing ids keeps them increasing. */
  lemma PrependIssued(head: seq<int>, rest: seq<int>, lo: int, mid: int, hi: int)
    requires (head == [] && lo <= mid) || (head == [lo] && mid == lo + 1)
    requires StrictlyIncreasing(rest) && AllWithin(rest, mid, hi) && mid <= hi
    ensures StrictlyIncreasing(head + rest) && AllWithin(head + rest, lo, hi)
  {
  }

  /**
   The ids handed out along any run strictly increase, start at the counter
   and stay below the final counter: deletes in between never cause an id to
   be handed out again, and no id already used before the run comes back.
   */
  lemma {:induction false} IssuedIdsIncrease(s: State, reqs: seq<Request>)
    ensures StrictlyIncreasing(Issued(s, reqs))
    ensures AllWithin(Issued(s, reqs), s.nextId, Run(s, reqs).nextId)
    ensures s.nextId <= Run(s, reqs).nextId
    decreases |reqs|
  {
    if reqs != [] {
      var t := Next(s, reqs[0]);
      NextIssues(s, reqs[0]);
      IssuedIdsIncrease(t, reqs[1..]);
      PrependIssued(IssuedBy(s, reqs[0]), Issued(t, reqs[1..]), s.nextId, t.nextId, Run(t, reqs[1..]).nextId);
    }
  }

  /**
   An id below the counter that is not in the list never appears in it again,
   whatever requests follow.
   */
  lemma {:induction false} RetiredIdStaysRetired(s: State, reqs: seq<Request>, id: int)
    requires id < s.nextId && !HasId(s.bookings, id)
    ensures !HasId(Run(s, reqs).bookings, id)
    decreases |reqs|
  {
    if reqs != [] {
      var req := reqs[0];
      var t := Next(s, req);
      NextIssues(s, req);
      match req {
        case CreateRequest(role, roomId, userName, startDate, endDate) =>
          var r := Create(s, role, roomId, userName, startDate, endDate);
          if r.result.Ok? {
            forall k | 0 <= k < |t.bookings| ensures t.bookings[k].id != id {
              if k < |s.bookings| {
                assert t.bookings[k] == s.bookings[k];
              }
            }
          }
        case ListRequest(_) =>
        case UpdateRequest(role, bookingId, startDate, endDate) =>
          UpdateKeepsIds(s, role, bookingId, startDate, endDate);
        case DeleteRequest(role, bookingId) =>
          DeleteKeepsOnlyOld(s, role, bookingId);
          forall k | 0 <= k < |t.bookings| ensures t.bookings[k].id != id {
            assert t.bookings[k] in s.bookings;
          }
      }
      RetiredIdStaysRetired(t, reqs[1..], id);
    }
  }

  /** Once an admin deletes an existing booking, no later request brings its id back. */
  lemma DeletedIdNeverReturns(s: State, bookingId: int, reqs: seq<Request>)
    requires WellFormed(s) && HasId(s.bookings, bookingId)
    ensures !HasId(Run(Delete(s, Admin, bookingId).state, reqs).bookings, bookingId)
  {
    DeleteOutcomes(s, Admin, bookingId);
    DeleteRemovesExactlyOne(s, Admin, bookingId);
    RetiredIdStaysRetired(Delete(s, Admin, bookingId).state, reqs, bookingId);
  }

  /** Without update requests, an overlap-free list stays overlap-free. */
  lemma {:induction false} NoOverlapWithoutUpdates(s: State, reqs: seq<Request>)
    requires NoOverlap(s.bookings)
    requires forall k :: 0 <= k < |reqs| ==> !reqs[k].UpdateRequest?
    ensures NoOverlap(Run(s, reqs).bookings)
    decreases |reqs|
  {
    if reqs != [] {
      match reqs[0] {
        case CreateRequest(role, roomId, userName, startDate, endDate) =>
          CreateKeepsNoOverlap(s, role, roomId, userName, startDate, endDate);
        case ListRequest(_) =>
        case DeleteRequest(role, bookingId) =>
          DeleteKeepsNoOverlap(s, role, bookingId);
      }
      assert forall k :: 0 <= k < |reqs[1..]| ==> reqs[1..][k] == reqs[k + 1];
      NoOverlapWithoutUpdates(Next(s, reqs[0]), reqs[1..]);
    }
  }
}
