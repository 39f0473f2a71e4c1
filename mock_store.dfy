/**
 * `mockStorage` and `executeMockGraphQL`: one mutable store whose lists the
 * write handlers update in place (`push`, `splice`, element and field
 * assignment). Each method is proved to leave the store, and to answer,
 * as the matching step function of `MockHandlers` says, and to keep the
 * store invariant.
 */
module MockGraphQL {
  import opened Wrappers
  import opened MockData
  import opened MockHandlers
  import D = MockDispatch
  import P = MockProperties
  import C = Classifier

  class MockStore {
    var users: seq<User>
    var groups: seq<Group>
    var cars: seq<Car>
    var reservations: seq<Reservation>
    var events: seq<Event>
    var currentUser: User

    /** The store's contents as a value. */
    function State(): Store
      reads this
    {
      Store(users, groups, cars, reservations, events, currentUser)
    }

    ghost predicate Valid()
      reads this
    {
      Inv(State())
    }

    /** The store starts as copies of the seed lists, signed in as the first user. */
    constructor ()
      ensures State() == Initial && Valid()
    {
      users := MockUsers;
      groups := MockGroups;
      cars := MockCars;
      reservations := MockReservations;
      events := MockEvents;
      currentUser := Taro;
      new;
      InitialInv();
    }

    method Signup(input: Input, f: Fresh) returns (token: string, u: User)
      requires Valid()
      modifies this
      ensures Valid()
      ensures (State(), u) == SignupStep(old(State()), input, f) && token == Token(f)
    {
      u := SignupUser(input, f.id);
      users := users + [u];
      currentUser := u;
      token := Token(f);
    }

    method CreateGroup(input: Input, f: Fresh) returns (g: Group)
      requires Valid()
      modifies this
      ensures Valid()
      ensures (State(), g) == CreateGroupStep(old(State()), input, f)
    {
      g := NewGroup(input, currentUser, f);
      groups := groups + [g];
    }

    method JoinGroup(code: Option<string>) returns (r: Result<Group, Failure>)
      requires Valid()
      modifies this
      ensures Valid()
      ensures (State(), r) == JoinGroupStep(old(State()), code)
    {
      ghost var s0 := State();
      var found := GroupIndexByCode(groups, code);
      if found.None? {
        r := Err(Rejected(InvalidInviteCode));
        return;
      }
      var i := found.value;
      var g := groups[i];
      if !IsMember(g, currentUser.id) {
        g := g.(members := g.members + [MemberOf(currentUser)]);
        groups := groups[i := g];
      }
      r := Ok(g);
      P.JoinGroupKeepsInv(s0, code);
    }

    method CreateEvent(input: Input, f: Fresh) returns (r: Result<Event, Failure>)
      requires Valid()
      modifies this
      ensures Valid()
      ensures (State(), r) == CreateEventStep(old(State()), input, f)
    {
      if !Truthy(input.groupId) {
        r := Err(Rejected(MissingGroupId));
        return;
      }
      if input.title == "" {
        r := Err(Rejected(MissingTitle));
        return;
      }
      var e := NewEvent(input, currentUser, f);
      events := events + [e];
      r := Ok(e);
    }

    method DeleteEvent(id: Option<string>) returns (deleted: bool)
      requires Valid()
      modifies this
      ensures Valid()
      ensures (State(), deleted) == DeleteEventStep(old(State()), id)
    {
      var found := EventIndexById(events, id);
      if found.Some? {
        var i := found.value;
        events := events[..i] + events[i + 1..];
      }
      deleted := true;
    }

    method CreateCar(input: Input, f: Fresh) returns (c: Car)
      requires Valid()
      modifies this
      ensures Valid()
      ensures (State(), c) == CreateCarStep(old(State()), input, f)
    {
      c := NewCar(input, currentUser, f);
      cars := cars + [c];
    }

    method CreateReservation(input: Input, f: Fresh) returns (res: Reservation)
      requires Valid()
      modifies this
      ensures Valid()
      ensures (State(), res) == CreateReservationStep(old(State()), input, f)
    {
      var car := CarById(cars, input.carId);
      var days := DayCount(input.startDate, input.endDate);
      var totalPrice := if car.Some? then car.value.pricePerDay * days else 0;
      res := Reservation(f.id, input.startDate, input.endDate, totalPrice, Confirmed, car, currentUser);
      reservations := reservations + [res];
    }

    method CancelReservation(id: Option<string>) returns (r: Option<Reservation>)
      requires Valid()
      modifies this
      ensures Valid()
      ensures (State(), r) == CancelReservationStep(old(State()), id)
    {
      var found := ReservationIndexById(reservations, id);
      if found.None? {
        r := None;
        return;
      }
      var i := found.value;
      var cancelled := reservations[i].(status := Cancelled);
      reservations := reservations[i := cancelled];
      r := Some(cancelled);
    }

    method UpdateProfile(input: Option<Input>) returns (r: Result<User, Failure>)
      requires Valid()
      modifies this
      ensures Valid()
      ensures (State(), r) == UpdateProfileStep(old(State()), input)
    {
      ghost var s0 := State();
      if input.None? {
        r := Err(Rejected(MissingProfileInput));
        return;
      }
      var updated := UpdatedUser(currentUser, input.value);
      currentUser := updated;
      var found := UserIndexById(users, currentUser.id);
      if found.Some? {
        users := users[found.value := updated];
      }
      r := Ok(updated);
      P.UpdateProfileKeepsInv(s0, input);
    }

    /** Answers one request: classify the query text, then run that handler. */
    method Execute(query: string, v: Vars, f: Fresh) returns (r: Result<D.Response, Failure>)
      requires Valid()
      modifies this
      ensures Valid()
      ensures (State(), r) == D.Execute(old(State()), query, v, f)
    {
      r := Run(C.Classify(query, Truthy(v.id)), v, f);
    }

    /** Runs the handler `op` on the store with the request's variables. */
    method Run(op: C.Op, v: Vars, f: Fresh) returns (r: Result<D.Response, Failure>)
      requires Valid()
      modifies this
      ensures Valid()
      ensures (State(), r) == D.Run(old(State()), op, v, f)
    {
      var input := InputOf(v);
      match op
      case GetCurrentUser =>
        r := Ok(D.MeR(currentUser));
      case Login =>
        r := Ok(D.LoginR(Token(f), currentUser));
      case SendVerificationCode =>
        r := Ok(D.SendVerificationCodeR(true));
      case Signup =>
        var token, u := Signup(input, f);
        r := Ok(D.SignupR(token, u));
      case GetMyGroups =>
        r := Ok(D.MyGroupsR(MyGroups(groups, currentUser.id)));
      case CreateGroup =>
        var g := CreateGroup(input, f);
        r := Ok(D.CreateGroupR(g));
      case JoinGroup =>
        var j := JoinGroup(input.inviteCode);
        r := if j.Ok? then Ok(D.JoinGroupR(j.value)) else Err(j.error);
      case GetGroupByInviteCode =>
        r := Ok(D.GroupByInviteCodeR(GroupByInviteCode(groups, v.inviteCode)));
      case GetGroupEvents =>
        r := Ok(D.GroupEventsR(GroupEvents(events, input.groupId)));
      case CreateEvent =>
        var e := CreateEvent(input, f);
        r := if e.Ok? then Ok(D.CreateEventR(e.value)) else Err(e.error);
      case DeleteEvent =>
        var deleted := DeleteEvent(v.id);
        r := Ok(D.DeleteEventR(deleted));
      case GetAvailableCars =>
        r := Ok(D.CarsR(AvailableCars(cars, v.filterAvailable)));
      case GetCar =>
        r := Ok(D.CarR(CarById(cars, v.id)));
      case CreateCar =>
        var c := CreateCar(input, f);
        r := Ok(D.CreateCarR(c));
      case CreateReservation =>
        var res := CreateReservation(input, f);
        r := Ok(D.CreateReservationR(res));
      case GetReservations =>
        var lists := ReservationLists(State());
        r := if lists.Ok? then Ok(D.ReservationsR(lists.value.0, lists.value.1)) else Err(lists.error);
      case CancelReservation =>
        var c := CancelReservation(v.id);
        r := Ok(D.CancelReservationR(c));
      case GetDashboardData =>
        r := Ok(D.DashboardR(DashboardData(State())));
      case UpdateProfile =>
        var u := UpdateProfile(v.input);
        r := if u.Ok? then Ok(D.UpdateProfileR(u.value)) else Err(u.error);
      case EmptyMyGroups =>
        r := Ok(D.MyGroupsR([]));
      case EmptyGroupEvents =>
        r := Ok(D.GroupEventsR([]));
      case Unhandled =>
        r := Ok(D.EmptyResponse);
    }
  }
}
