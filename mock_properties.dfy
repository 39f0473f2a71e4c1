/**
 * What the mock backend's handlers promise, proved about the step
 * functions of `MockHandlers` and the dispatcher of `MockDispatch`.
 */
module MockProperties {
  import opened Wrappers
  import opened Text
  import opened MockData
  import opened MockHandlers
  import opened MockDispatch
  import Seqs
  import C = Classifier

  // ------------------------------------------------------------ JoinGroup

  /**
   * An unknown invite code is rejected with the store unchanged; a member
   * gets the same group back with the store unchanged; anyone else is
   * appended once to the first group with that code, and nothing else changes.
   */
  lemma JoinGroupOutcome(s: Store, code: Option<string>)
    ensures GroupIndexByCode(s.groups, code).None? ==>
      JoinGroupStep(s, code) == (s, Err(Rejected(InvalidInviteCode)))
    ensures GroupIndexByCode(s.groups, code).Some? ==>
      var i := GroupIndexByCode(s.groups, code).value;
      var (s', r) := JoinGroupStep(s, code);
      && i < |s.groups| && Some(s.groups[i].inviteCode) == code
      && r.Ok? && r.value.id == s.groups[i].id && r.value.inviteCode == s.groups[i].inviteCode
      && s' == s.(groups := s.groups[i := r.value])
      && (IsMember(s.groups[i], s.currentUser.id) ==> s' == s && r.value == s.groups[i])
      && (!IsMember(s.groups[i], s.currentUser.id) ==>
            r.value == s.groups[i].(members := s.groups[i].members + [MemberOf(s.currentUser)]))
  {
  }

  /** Joining keeps every group's members distinct. */
  lemma JoinGroupKeepsInv(s: Store, code: Option<string>)
    requires Inv(s)
    ensures Inv(JoinGroupStep(s, code).0)
  {
    match GroupIndexByCode(s.groups, code)
    case None =>
    case Some(i) =>
      var g := s.groups[i];
      if !IsMember(g, s.currentUser.id) {
        var joined := g.(members := g.members + [MemberOf(s.currentUser)]);
        assert MemberIdsDistinct(g);
        assert MemberIdsDistinct(joined) by {
          forall a, b | 0 <= a < b < |joined.members|
            ensures joined.members[a].id != joined.members[b].id
          {
            if b == |g.members| {
              assert g.members[a] in g.members;
            }
          }
        }
        var groups := s.groups[i := joined];
        forall h | h in groups ensures MemberIdsDistinct(h) {
          var k :| 0 <= k < |groups| && groups[k] == h;
          if k != i { assert h == s.groups[k]; }
        }
      }
  }

  /** Joining twice with the same code is joining once. */
  lemma JoinGroupIdempotent(s: Store, code: Option<string>)
    ensures var (s1, r1) := JoinGroupStep(s, code); JoinGroupStep(s1, code) == (s1, r1)
  {
    var (s1, r1) := JoinGroupStep(s, code);
    match GroupIndexByCode(s.groups, code)
    case None =>
    case Some(i) =>
      if !IsMember(s.groups[i], s.currentUser.id) {
        var p := (g: Group) => Some(g.inviteCode) == code;
        Seqs.FirstIndexAgrees(s.groups, s1.groups, p);
        assert MemberOf(s.currentUser) in s1.groups[i].members;
      }
  }

  // ---------------------------------------------------------- CreateGroup

  /** One group is appended, holding only its creator; existing groups stay. */
  lemma CreateGroupOutcome(s: Store, input: Input, f: Fresh)
    ensures var (s', g) := CreateGroupStep(s, input, f);
      && s' == s.(groups := s.groups + [g])
      && g.members == [MemberOf(s.currentUser)] && g.members[0].id == s.currentUser.id
      && g.name == (if input.name == "" then "新しいグループ" else input.name)
      && s'.groups[..|s.groups|] == s.groups
  {
  }

  /** The new code keeps invite codes distinct exactly when no group already uses it. */
  lemma CreateGroupInviteCodes(s: Store, input: Input, f: Fresh)
    requires InviteCodesDistinct(s.groups)
    ensures InviteCodesDistinct(CreateGroupStep(s, input, f).0.groups) <==>
      forall g :: g in s.groups ==> g.inviteCode != Upper(f.code)
  {
    var groups := CreateGroupStep(s, input, f).0.groups;
    var n := |s.groups|;
    if !InviteCodesDistinct(groups) {
      var i, j :| 0 <= i < j < |groups| && groups[i].inviteCode == groups[j].inviteCode;
      assert j == n && groups[i] in s.groups;
    }
    if InviteCodesDistinct(groups) {
      forall g | g in s.groups ensures g.inviteCode != Upper(f.code) {
        var i :| 0 <= i < n && s.groups[i] == g;
        assert groups[i] == g && groups[n].inviteCode == Upper(f.code);
      }
    }
  }

  /** Nothing stops a second group from receiving an existing code. */
  lemma CreateGroupCanDuplicateCode()
    ensures !InviteCodesDistinct(CreateGroupStep(Initial, NoInput, Fresh("mock-9", "abc123", "0")).0.groups)
  {
    var f := Fresh("mock-9", "abc123", "0");
    assert Upper(f.code) == "ABC123";
    CreateGroupInviteCodes(Initial, NoInput, f);
    SeedInviteCodesDistinct();
  }

  /** Creating a group keeps the store invariant. */
  lemma CreateGroupKeepsInv(s: Store, input: Input, f: Fresh)
    requires Inv(s)
    ensures Inv(CreateGroupStep(s, input, f).0)
  {
  }

  // ---------------------------------------------------------- CreateEvent

  /** `groupId` is checked before `title`; a rejection leaves the store alone. */
  lemma CreateEventValidation(s: Store, input: Input, f: Fresh)
    ensures !Truthy(input.groupId) ==> CreateEventStep(s, input, f) == (s, Err(Rejected(MissingGroupId)))
    ensures Truthy(input.groupId) && input.title == "" ==>
      CreateEventStep(s, input, f) == (s, Err(Rejected(MissingTitle)))
    ensures Truthy(input.groupId) && input.title != "" ==>
      var (s', r) := CreateEventStep(s, input, f);
      && r.Ok? && s' == s.(events := s.events + [r.value])
      && r.value.userId == s.currentUser.id && r.value.groupId == input.groupId.value
      && (!input.isImportant ==> !r.value.isImportant)
      && (!input.isCommute ==> !r.value.isCommute)
      && (input.note == "" ==> r.value.note == "")
  {
  }

  /** A created event is listed last among its group's events. */
  lemma CreatedEventListed(s: Store, input: Input, f: Fresh)
    requires Truthy(input.groupId) && input.title != ""
    ensures var (s', r) := CreateEventStep(s, input, f);
      r.Ok? && GroupEvents(s'.events, input.groupId) == GroupEvents(s.events, input.groupId) + [r.value]
  {
    var e := NewEvent(input, s.currentUser, f);
    var p := (x: Event) => Some(x.groupId) == input.groupId;
    Seqs.FilterAppend(s.events, [e], p);
    assert Seqs.Filter([e], p) == [e] by {
      assert [e][1..] == [];
    }
  }

  /** Other groups' event lists do not change. */
  lemma CreatedEventNotListedElsewhere(s: Store, input: Input, f: Fresh, other: Option<string>)
    requires other != input.groupId
    ensures GroupEvents(CreateEventStep(s, input, f).0.events, other) == GroupEvents(s.events, other)
  {
    var p := (x: Event) => Some(x.groupId) == other;
    if Truthy(input.groupId) && input.title != "" {
      var e := NewEvent(input, s.currentUser, f);
      Seqs.FilterAppend(s.events, [e], p);
      assert Seqs.Filter([e], p) == [] by {
        assert [e][1..] == [];
      }
      assert s.events + [e] == CreateEventStep(s, input, f).0.events;
    }
  }

  // ---------------------------------------------------------- DeleteEvent

  /**
   * Deleting removes only the first event with the id, or nothing; the
   * answer is always `true`.
   */
  lemma DeleteEventOutcome(s: Store, id: Option<string>)
    ensures DeleteEventStep(s, id).1
    ensures EventIndexById(s.events, id).None? ==> DeleteEventStep(s, id).0 == s
    ensures EventIndexById(s.events, id).Some? ==>
      var i := EventIndexById(s.events, id).value;
      var s' := DeleteEventStep(s, id).0;
      && Some(s.events[i].id) == id
      && (forall j :: 0 <= j < i ==> Some(s.events[j].id) != id)
      && s' == s.(events := s'.events)
      && |s'.events| == |s.events| - 1
      && s'.events[..i] == s.events[..i] && s'.events[i..] == s.events[i + 1..]
  {
  }

  /** Deleting an event right after creating it, by its fresh id, restores the store. */
  lemma DeleteAfterCreate(s: Store, input: Input, f: Fresh)
    requires Truthy(input.groupId) && input.title != ""
    requires forall e :: e in s.events ==> e.id != f.id
    ensures var s1 := CreateEventStep(s, input, f).0; DeleteEventStep(s1, Some(f.id)).0 == s
  {
    var e := NewEvent(input, s.currentUser, f);
    var s1 := CreateEventStep(s, input, f).0;
    var n := |s.events|;
    assert s1.events[n] == e;
    assert forall j :: 0 <= j < n ==> s1.events[j] == s.events[j];
    assert EventIndexById(s1.events, Some(f.id)) == Some(n);
    assert s1.events[..n] + s1.events[n + 1..] == s.events;
  }

  // ---------------------------------------------------- CancelReservation

  /**
   * Cancelling sets the first matching reservation to CANCELLED and changes
   * no other; an unknown id answers nothing and changes nothing.
   */
  lemma CancelReservationOutcome(s: Store, id: Option<string>)
    ensures ReservationIndexById(s.reservations, id).None? ==> CancelReservationStep(s, id) == (s, None)
    ensures ReservationIndexById(s.reservations, id).Some? ==>
      var i := ReservationIndexById(s.reservations, id).value;
      var (s', r) := CancelReservationStep(s, id);
      && r.Some? && r.value.status == Cancelled && Some(r.value.id) == id
      && s' == s.(reservations := s'.reservations)
      && |s'.reservations| == |s.reservations|
      && s'.reservations[i] == s.reservations[i].(status := Cancelled)
      && (forall j :: 0 <= j < |s.reservations| && j != i ==> s'.reservations[j] == s.reservations[j])
  {
  }

  /** Cancelling twice is cancelling once. */
  lemma CancelReservationIdempotent(s: Store, id: Option<string>)
    ensures var (s1, r1) := CancelReservationStep(s, id); CancelReservationStep(s1, id) == (s1, r1)
  {
    var (s1, r1) := CancelReservationStep(s, id);
    if ReservationIndexById(s.reservations, id).Some? {
      var i := ReservationIndexById(s.reservations, id).value;
      Seqs.FirstIndexAgrees(s.reservations, s1.reservations, (r: Reservation) => Some(r.id) == id);
      assert s1.reservations[i].(status := Cancelled) == s1.reservations[i];
      assert s1.reservations[i := s1.reservations[i]] == s1.reservations;
    }
  }

  // ---------------------------------------------------- CreateReservation

  /** The booking is CONFIRMED and priced per started day, or 0 for an unknown car. */
  lemma CreateReservationOutcome(s: Store, input: Input, f: Fresh)
    ensures var (s', r) := CreateReservationStep(s, input, f);
      && s' == s.(reservations := s.reservations + [r])
      && r.status == Confirmed && r.user == s.currentUser
      && (CarById(s.cars, input.carId).None? ==> r.totalPrice == 0)
      && (CarById(s.cars, input.carId).Some? ==>
            r.totalPrice == CarById(s.cars, input.carId).value.pricePerDay * DayCount(input.startDate, input.endDate))
  {
  }

  /** A span of whole days costs that many days; any part of a day costs a full day. */
  lemma DayCountWholeDays(start: int, days: int)
    ensures DayCount(start, start + days * MsPerDay) == days
    ensures days >= 0 ==> DayCount(start, start + days * MsPerDay + 1) == days + 1
  {
  }

  /** A car at 5000 per day, from 2024-01-20 to 2024-01-22, costs 10000. */
  lemma TwoDayBookingPrice()
    ensures var input := NoInput.(carId := Some("car-1"), startDate := 1705708800000, endDate := 1705881600000);
      CreateReservationStep(Initial, input, Fresh("mock-1", "", "0")).1.totalPrice == 10000
  {
    var input := NoInput.(carId := Some("car-1"), startDate := 1705708800000, endDate := 1705881600000);
    assert MockCars[0].id == "car-1";
    assert CarById(MockCars, input.carId) == Some(Prius);
    DayCountWholeDays(1705708800000, 2);
  }

  /**
   * A booking for an unknown car stores no car; from then on, with any car
   * in the store, listing reservations throws.
   */
  lemma UnknownCarBreaksReservationLists(s: Store, input: Input, f: Fresh)
    requires |s.cars| > 0 && CarById(s.cars, input.carId).None?
    ensures ReservationLists(CreateReservationStep(s, input, f).0).Err?
  {
    var s' := CreateReservationStep(s, input, f).0;
    assert s'.reservations[|s.reservations|] in s'.reservations;
  }

  // -------------------------------------------------------- UpdateProfile

  /**
   * No input: rejected, nothing changes. Otherwise the merged user becomes
   * the current user and replaces the first user with its id; other users
   * stay as they were.
   */
  lemma UpdateProfileOutcome(s: Store, input: Option<Input>)
    ensures input.None? ==> UpdateProfileStep(s, input) == (s, Err(Rejected(MissingProfileInput)))
    ensures input.Some? ==>
      var (s', r) := UpdateProfileStep(s, input);
      && r == Ok(UpdatedUser(s.currentUser, input.value))
      && s'.currentUser == r.value
      && s' == s.(users := s'.users, currentUser := r.value)
      && |s'.users| == |s.users|
      && (forall j :: 0 <= j < |s.users| && s.users[j] != s'.users[j] ==>
            s'.users[j] == r.value && s.users[j].id == r.value.id)
      && (s.currentUser in s.users ==> r.value in s'.users)
  {
    if input.Some? {
      var u := UpdatedUser(s.currentUser, input.value);
      if s.currentUser in s.users {
        assert UserIndexById(s.users, u.id).Some? by {
          var k :| 0 <= k < |s.users| && s.users[k] == s.currentUser;
        }
      }
    }
  }

  lemma UpdateProfileKeepsInv(s: Store, input: Option<Input>)
    requires Inv(s)
    ensures Inv(UpdateProfileStep(s, input).0)
  {
    UpdateProfileOutcome(s, input);
    if input.Some? {
      var s' := UpdateProfileStep(s, input).0;
      forall u | u in s'.users ensures NameConsistent(u) {
        var j :| 0 <= j < |s'.users| && s'.users[j] == u;
        if s.users[j] == u { assert s.users[j] in s.users; }
      }
    }
  }

  // ----------------------------------------------------------- Dispatcher

  /** Each handler keeps the store invariant. */
  lemma RunKeepsInv(s: Store, op: C.Op, v: Vars, f: Fresh)
    requires Inv(s)
    ensures Inv(Run(s, op, v, f).0)
  {
    match op
    case JoinGroup => JoinGroupKeepsInv(s, InputOf(v).inviteCode);
    case UpdateProfile => UpdateProfileKeepsInv(s, v.input);
    case DeleteEvent =>
      var s' := Run(s, op, v, f).0;
      assert s' == s.(events := s'.events);
    case CancelReservation =>
      var s' := Run(s, op, v, f).0;
      assert s' == s.(reservations := s'.reservations);
    case _ =>
  }

  /** Every request keeps the store invariant. */
  lemma ExecuteKeepsInv(s: Store, query: string, v: Vars, f: Fresh)
    requires Inv(s)
    ensures Inv(Execute(s, query, v, f).0)
  {
    RunKeepsInv(s, C.Classify(query, Truthy(v.id)), v, f);
  }

  /** Only the join, event-creation, reservation-list and profile handlers reject, and a rejection changes nothing. */
  lemma RunRejections(s: Store, op: C.Op, v: Vars, f: Fresh)
    ensures Run(s, op, v, f).1.Err? ==> op in {C.JoinGroup, C.CreateEvent, C.GetReservations, C.UpdateProfile}
    ensures Run(s, op, v, f).1.Err? ==> Run(s, op, v, f).0 == s
  {
    match op
    case JoinGroup =>
    case CreateEvent =>
    case GetReservations =>
    case UpdateProfile =>
    case _ =>
  }

  /** Only the join, event-creation, reservation-list and profile handlers reject a request. */
  lemma ExecuteRejections(s: Store, query: string, v: Vars, f: Fresh)
    ensures Execute(s, query, v, f).1.Err? ==>
      C.Classify(query, Truthy(v.id)) in {C.JoinGroup, C.CreateEvent, C.GetReservations, C.UpdateProfile}
    ensures Execute(s, query, v, f).1.Err? ==> Execute(s, query, v, f).0 == s
  {
    RunRejections(s, C.Classify(query, Truthy(v.id)), v, f);
  }

  /** The query handlers and the fallbacks leave the store as it was. */
  lemma RunReadOnly(s: Store, op: C.Op, v: Vars, f: Fresh)
    requires op in
      {C.GetCurrentUser, C.Login, C.SendVerificationCode, C.GetMyGroups, C.GetGroupByInviteCode,
       C.GetGroupEvents, C.GetAvailableCars, C.GetCar, C.GetReservations, C.GetDashboardData,
       C.EmptyMyGroups, C.EmptyGroupEvents, C.Unhandled}
    ensures Run(s, op, v, f).0 == s
  {
    match op
    case GetReservations =>
    case _ =>
  }

  /** Queries leave the store as it was. */
  lemma ExecuteReadOnly(s: Store, query: string, v: Vars, f: Fresh)
    requires C.Classify(query, Truthy(v.id)) in
      {C.GetCurrentUser, C.Login, C.SendVerificationCode, C.GetMyGroups, C.GetGroupByInviteCode,
       C.GetGroupEvents, C.GetAvailableCars, C.GetCar, C.GetReservations, C.GetDashboardData,
       C.EmptyMyGroups, C.EmptyGroupEvents, C.Unhandled}
    ensures Execute(s, query, v, f).0 == s
  {
    RunReadOnly(s, C.Classify(query, Truthy(v.id)), v, f);
  }

  /**
   * A query naming `myReservations`, such as the dashboard's, never gets the
   * dashboard answer (static counters plus three own cars).
   */
  lemma DashboardQueryGetsNoDashboard(s: Store, query: string, v: Vars, f: Fresh)
    requires Contains(query, "myReservations")
    ensures Execute(s, query, v, f).1.Ok? ==> !Execute(s, query, v, f).1.value.DashboardR?
  {
    C.DashboardQueryNeverReachesDashboardHandler(query, Truthy(v.id));
    DashboardAnswerOnlyFromItsHandler(s, C.Classify(query, Truthy(v.id)), v, f);
  }

  /** Only the dashboard handler answers with dashboard data. */
  lemma DashboardAnswerOnlyFromItsHandler(s: Store, op: C.Op, v: Vars, f: Fresh)
    ensures Run(s, op, v, f).1.Ok? && Run(s, op, v, f).1.value.DashboardR? ==> op == C.GetDashboardData
  {
    match op
    case GetDashboardData =>
    case GetReservations =>
    case JoinGroup =>
    case CreateEvent =>
    case UpdateProfile =>
    case _ =>
  }
}
