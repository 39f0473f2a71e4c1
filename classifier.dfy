/**
 * How the mock backend picks a handler: the query text is tested, in a
 * fixed order, for name fragments (case-sensitive substring tests), and the
 * first handler whose guard matches wins. One guard also needs a truthy `id`
 * variable. When no guard matches, two list-shaped fallbacks are tried
 * before the empty answer.
 */
module Classifier {
  import opened Wrappers
  import opened Text
  import Seqs

  datatype Op =
    | GetCurrentUser | Login | SendVerificationCode | Signup
    | GetMyGroups | CreateGroup | JoinGroup | GetGroupByInviteCode
    | GetGroupEvents | CreateEvent | DeleteEvent
    | GetAvailableCars | GetCar | CreateCar
    | CreateReservation | GetReservations | CancelReservation
    | GetDashboardData | UpdateProfile
    // fallbacks, tried only after every guard failed
    | EmptyMyGroups | EmptyGroupEvents | Unhandled

  /** The handlers in the order their guards are tried. */
  const Order: seq<Op> := [
    GetCurrentUser, Login, SendVerificationCode, Signup,
    GetMyGroups, CreateGroup, JoinGroup, GetGroupByInviteCode,
    GetGroupEvents, CreateEvent, DeleteEvent,
    GetAvailableCars, GetCar, CreateCar,
    CreateReservation, GetReservations, CancelReservation,
    GetDashboardData, UpdateProfile
  ]

  /** Whether the query text names one of `op`'s fragments; fallbacks name none. */
  predicate Mentions(query: string, op: Op) {
    match op
    case GetCurrentUser => Contains(query, "GetCurrentUser") || Contains(query, "me {")
    case Login => Contains(query, "Login")
    case SendVerificationCode => Contains(query, "SendVerificationCode")
    case Signup => Contains(query, "Signup")
    case GetMyGroups => Contains(query, "GetMyGroups") || Contains(query, "myGroups")
    case CreateGroup => Contains(query, "CreateGroup")
    case JoinGroup => Contains(query, "JoinGroup")
    case GetGroupByInviteCode => Contains(query, "GetGroupByInviteCode")
    case GetGroupEvents => Contains(query, "GetGroupEvents") || Contains(query, "groupEvents")
    case CreateEvent => Contains(query, "CreateEvent")
    case DeleteEvent => Contains(query, "DeleteEvent")
    case GetAvailableCars => Contains(query, "GetAvailableCars") || Contains(query, "cars(")
    case GetCar => Contains(query, "GetCar")
    case CreateCar => Contains(query, "CreateCar")
    case CreateReservation => Contains(query, "CreateReservation")
    case GetReservations => Contains(query, "GetReservations") || Contains(query, "myReservations")
    case CancelReservation => Contains(query, "CancelReservation")
    case GetDashboardData => Contains(query, "GetDashboardData")
    case UpdateProfile => Contains(query, "UpdateProfile")
    case EmptyMyGroups => false
    case EmptyGroupEvents => false
    case Unhandled => false
  }

  /** Whether `op`'s guard holds: it is mentioned, and an id is given where one is needed. */
  predicate Matches(query: string, hasId: bool, op: Op) {
    Mentions(query, op) && (op != GetCar || hasId)
  }

  /** The answer shape chosen when no handler's guard matches. */
  function Fallback(query: string): (op: Op)
    ensures Position(op) >= |Order|
  {
    if Contains(query, "myGroups") then EmptyMyGroups
    else if Contains(query, "groupEvents") then EmptyGroupEvents
    else Unhandled
  }

  /** The guard test for one query, as a predicate on handlers. */
  function Guard(query: string, hasId: bool): Op -> bool {
    op => Matches(query, hasId, op)
  }

  /** The handler that answers `query`; `hasId` is whether `variables.id` is truthy. */
  function Classify(query: string, hasId: bool): Op {
    Seqs.FindOr(Order, Guard(query, hasId), Fallback(query))
  }

  /** The place of each handler in the order; fallbacks come after all of them. */
  function Position(op: Op): nat {
    match op
    case GetCurrentUser => 0
    case Login => 1
    case SendVerificationCode => 2
    case Signup => 3
    case GetMyGroups => 4
    case CreateGroup => 5
    case JoinGroup => 6
    case GetGroupByInviteCode => 7
    case GetGroupEvents => 8
    case CreateEvent => 9
    case DeleteEvent => 10
    case GetAvailableCars => 11
    case GetCar => 12
    case CreateCar => 13
    case CreateReservation => 14
    case GetReservations => 15
    case CancelReservation => 16
    case GetDashboardData => 17
    case UpdateProfile => 18
    case EmptyMyGroups => 19
    case EmptyGroupEvents => 20
    case Unhandled => 21
  }

  /** Each handler in the order sits at its own place. */
  lemma OrderPosition(k: nat)
    requires k < |Order|
    ensures Position(Order[k]) == k
  {
  }

  /** No handler is tried twice, and no fallback is tried as a handler. */
  lemma OrderDistinct()
    ensures forall i, j :: 0 <= i < j < |Order| ==> Order[i] != Order[j]
    ensures forall i :: 0 <= i < |Order| ==> Order[i] !in {EmptyMyGroups, EmptyGroupEvents, Unhandled}
  {
    OrderIndexed();
  }

  /** Every handler's place is recovered from it, so none is tried twice. */
  lemma OrderIndexed()
    ensures Seqs.Indexed(Order, Position)
  {
    forall i | 0 <= i < |Order|
      ensures Position(Order[i]) == i
    {
      OrderPosition(i);
    }
  }

  /**
   * First match wins, in both directions: the handler at place `k` answers
   * exactly when its guard matches and no earlier guard does.
   */
  lemma ClassifyFirstMatch(query: string, hasId: bool, k: nat)
    requires k < |Order|
    ensures Classify(query, hasId) == Order[k] <==>
      Matches(query, hasId, Order[k]) && forall j :: 0 <= j < k ==> !Matches(query, hasId, Order[j])
  {
    OrderIndexed();
    Seqs.FindOrFirstMatch(Order, Position, Guard(query, hasId), Fallback(query), k);
  }

  /**
   * A query text naming `myReservations` is answered by the reservations
   * handler or an earlier one, never by the dashboard handler, whatever
   * else it contains. The dashboard page's query asks for `myReservations`.
   */
  lemma DashboardQueryNeverReachesDashboardHandler(query: string, hasId: bool)
    requires Contains(query, "myReservations")
    ensures Classify(query, hasId) != GetDashboardData
  {
    assert Matches(query, hasId, Order[15]);
    ClassifyFirstMatch(query, hasId, 17);
  }

  /** With no earlier guard matching, such a query gets the reservations answer. */
  lemma DashboardQueryAnsweredByReservations(query: string, hasId: bool)
    requires Contains(query, "GetDashboardData") && Contains(query, "myReservations")
    requires forall j :: 0 <= j < 15 ==> !Matches(query, hasId, Order[j])
    ensures Classify(query, hasId) == GetReservations
  {
    assert Matches(query, hasId, Order[15]);
    ClassifyFirstMatch(query, hasId, 15);
  }

  /**
   * The `myGroups` and `groupEvents` fallbacks are dead: those fragments are
   * already guards of the group-list and event-list handlers.
   */
  lemma FallbacksUnreachable(query: string, hasId: bool)
    ensures Classify(query, hasId) != EmptyMyGroups
    ensures Classify(query, hasId) != EmptyGroupEvents
  {
    OnlyEmptyFallback(query, hasId);
  }

  /** The only fallback ever chosen is the empty answer. */
  lemma OnlyEmptyFallback(query: string, hasId: bool)
    ensures Position(Classify(query, hasId)) >= |Order| ==> Classify(query, hasId) == Unhandled
  {
    if Position(Classify(query, hasId)) >= |Order| {
      ClassifiedFallback(query, hasId);
      UnmatchedListsFallBackToEmpty(query, hasId);
    }
  }

  /** A fallback answer means every guard failed, the group and event lists' included. */
  lemma ClassifiedFallback(query: string, hasId: bool)
    requires Position(Classify(query, hasId)) >= |Order|
    ensures Classify(query, hasId) == Fallback(query)
    ensures !Matches(query, hasId, GetMyGroups) && !Matches(query, hasId, GetGroupEvents)
  {
    OrderIndexed();
    Seqs.FindOrDefault(Order, Position, Guard(query, hasId), Fallback(query));
    var g := Guard(query, hasId);
    assert !g(Order[4]) && !g(Order[8]);
    assert Order[4] == GetMyGroups && Order[8] == GetGroupEvents;
  }

  /** With both list guards failed, the fallback is the empty answer. */
  lemma UnmatchedListsFallBackToEmpty(query: string, hasId: bool)
    requires !Matches(query, hasId, GetMyGroups) && !Matches(query, hasId, GetGroupEvents)
    ensures Fallback(query) == Unhandled
  {
  }

  /** The single-car handler is never chosen without an id. */
  lemma GetCarNeedsId(query: string)
    ensures Classify(query, false) != GetCar
  {
    ClassifyFirstMatch(query, false, 12);
  }
}
