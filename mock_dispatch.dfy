/**
 * `executeMockGraphQL`: classify the query text, then run that handler on
 * the store. Answers are keyed as the real API's result fields.
 */
module MockDispatch {
  import opened Wrappers
  import opened MockData
  import opened MockHandlers
  import C = Classifier

  datatype Response =
    | MeR(me: User)
    | LoginR(loginToken: string, loginUser: User)
    | SendVerificationCodeR(sent: bool)
    | SignupR(signupToken: string, signupUser: User)
    | MyGroupsR(myGroups: seq<GroupSummary>)
    | CreateGroupR(createGroup: Group)
    | JoinGroupR(joinGroup: Group)
    | GroupByInviteCodeR(groupByInviteCode: Option<Group>)
    | GroupEventsR(groupEvents: seq<Event>)
    | CreateEventR(createEvent: Event)
    | DeleteEventR(deleteEvent: bool)
    | CarsR(cars: seq<Car>)
    | CarR(car: Option<Car>)
    | CreateCarR(createCar: Car)
    | CreateReservationR(createReservation: Reservation)
    | ReservationsR(myReservations: seq<Reservation>, carReservations: seq<Reservation>)
    | CancelReservationR(cancelReservation: Option<Reservation>)
    | DashboardR(dashboard: Dashboard)
    | UpdateProfileR(updateProfile: User)
    | EmptyResponse

  /** Answers one request: classify the query text, then run that handler. */
  function Execute(s: Store, query: string, v: Vars, f: Fresh): (Store, Result<Response, Failure>) {
    Run(s, C.Classify(query, Truthy(v.id)), v, f)
  }

  /** Runs the handler `op` on the store with the request's variables. */
  function Run(s: Store, op: C.Op, v: Vars, f: Fresh): (Store, Result<Response, Failure>) {
    var input := InputOf(v);
    match op
    case GetCurrentUser => (s, Ok(MeR(s.currentUser)))
    case Login => (s, Ok(LoginR(Token(f), s.currentUser)))
    case SendVerificationCode => (s, Ok(SendVerificationCodeR(true)))
    case Signup =>
      var t := SignupStep(s, input, f);
      (t.0, Ok(SignupR(Token(f), t.1)))
    case GetMyGroups => (s, Ok(MyGroupsR(MyGroups(s.groups, s.currentUser.id))))
    case CreateGroup =>
      var t := CreateGroupStep(s, input, f);
      (t.0, Ok(CreateGroupR(t.1)))
    case JoinGroup =>
      var t := JoinGroupStep(s, input.inviteCode);
      (t.0, if t.1.Ok? then Ok(JoinGroupR(t.1.value)) else Err(t.1.error))
    case GetGroupByInviteCode => (s, Ok(GroupByInviteCodeR(GroupByInviteCode(s.groups, v.inviteCode))))
    case GetGroupEvents => (s, Ok(GroupEventsR(GroupEvents(s.events, input.groupId))))
    case CreateEvent =>
      var t := CreateEventStep(s, input, f);
      (t.0, if t.1.Ok? then Ok(CreateEventR(t.1.value)) else Err(t.1.error))
    case DeleteEvent =>
      var t := DeleteEventStep(s, v.id);
      (t.0, Ok(DeleteEventR(t.1)))
    case GetAvailableCars => (s, Ok(CarsR(AvailableCars(s.cars, v.filterAvailable))))
    case GetCar => (s, Ok(CarR(CarById(s.cars, v.id))))
    case CreateCar =>
      var t := CreateCarStep(s, input, f);
      (t.0, Ok(CreateCarR(t.1)))
    case CreateReservation =>
      var t := CreateReservationStep(s, input, f);
      (t.0, Ok(CreateReservationR(t.1)))
    case GetReservations =>
      var lists := ReservationLists(s);
      (s, if lists.Ok? then Ok(ReservationsR(lists.value.0, lists.value.1)) else Err(lists.error))
    case CancelReservation =>
      var t := CancelReservationStep(s, v.id);
      (t.0, Ok(CancelReservationR(t.1)))
    case GetDashboardData => (s, Ok(DashboardR(DashboardData(s))))
    case UpdateProfile =>
      var t := UpdateProfileStep(s, v.input);
      (t.0, if t.1.Ok? then Ok(UpdateProfileR(t.1.value)) else Err(t.1.error))
    case EmptyMyGroups => (s, Ok(MyGroupsR([])))
    case EmptyGroupEvents => (s, Ok(GroupEventsR([])))
    case Unhandled => (s, Ok(EmptyResponse))
  }
}
