/**
 * The handlers of the mock GraphQL backend as functions of the store they
 * read and update. Each write handler gives the new store and its answer;
 * `MockStore` (mock_store.dfy) performs the same updates in place.
 *
 * The request's `variables` object is `Vars`. Fields that the handlers read
 * through `||` are plain values whose falsy value ("" / 0 / false) stands
 * for a missing field; fields compared with `===` are `Option`s.
 */
module MockHandlers {
  import opened Wrappers
  import opened Text
  import opened MockData
  import Seqs

  datatype Input = Input(
    firstName: string, lastName: string, email: string, icon: string, name: string,
    inviteCode: Option<string>, groupId: Option<string>, title: string,
    startTime: int, endTime: int, isImportant: bool, isCommute: bool, note: string,
    model: string, year: int, licensePlate: string, location: string,
    pricePerDay: int, imageUrl: string, carId: Option<string>, startDate: int, endDate: int)

  /** What `variables?.input?.field` reads when `input` is absent. */
  const NoInput := Input("", "", "", "", "", None, None, "", 0, 0, false, false, "",
                         "", 0, "", "", 0, "", None, 0, 0)

  datatype Vars = Vars(
    input: Option<Input>, id: Option<string>, inviteCode: Option<string>,
    filterAvailable: Option<bool>)

  function InputOf(v: Vars): Input {
    if v.input.Some? then v.input.value else NoInput
  }

  /** JavaScript truthiness of an optional string. */
  predicate Truthy(o: Option<string>) {
    o.Some? && o.value != ""
  }

  /** The values `Date.now()` and `Math.random()` would supply to one request. */
  datatype Fresh = Fresh(id: string, code: string, stamp: string)

  datatype Failure = Rejected(message: string) | TypeError

  const InvalidInviteCode := "無効な招待コードです"
  const MissingGroupId := "グループIDが指定されていません"
  const MissingTitle := "タイトルが指定されていません"
  const MissingProfileInput := "更新データが指定されていません"

  /** The whole in-memory store. */
  datatype Store = Store(
    users: seq<User>, groups: seq<Group>, cars: seq<Car>,
    reservations: seq<Reservation>, events: seq<Event>, currentUser: User)

  const Initial := Store(MockUsers, MockGroups, MockCars, MockReservations, MockEvents, Taro)

  /** What every handler keeps true of the store. */
  predicate Inv(s: Store) {
    && s.currentUser in s.users
    && (forall u :: u in s.users ==> NameConsistent(u))
    && (forall g :: g in s.groups ==> MemberIdsDistinct(g))
  }

  lemma InitialInv()
    ensures Inv(Initial)
  {
    SeedUserNames();
    SeedGroupMembers();
  }

  // ------------------------------------------------------ record builders

  /** `currentUser.name || lastName + " " + firstName`. */
  function UserName(u: User): (r: string)
    ensures NameConsistent(u) ==> r == u.lastName + " " + u.firstName
  {
    Or(u.name, u.lastName + " " + u.firstName)
  }

  /** `avatarId || 1`. */
  function AvatarOr1(a: int): (r: int)
    ensures r != 0
    ensures a != 0 ==> r == a
  {
    if a != 0 then a else 1
  }

  /** `n || d` on numbers. */
  function IntOr(n: int, d: int): int {
    if n != 0 then n else d
  }

  /** The member entry for a user joining or creating a group. */
  function MemberOf(u: User): (m: Member)
    ensures m.id == u.id && m.avatarId != 0
  {
    Member(u.id, UserName(u), AvatarOr1(u.avatarId))
  }

  predicate IsMember(g: Group, userId: string) {
    exists m :: m in g.members && m.id == userId
  }

  function Token(f: Fresh): string {
    "mock-token-" + f.stamp
  }

  /** The new user record exactly as the signup handler writes it. */
  function SignupUserAsWritten(input: Input, id: string): User {
    User(id, Or(input.firstName, "新規"), Or(input.lastName, "ユーザー"),
         Or(input.email, "new@example.com"), Or(input.icon, Placeholder64), 1,
         Or(input.lastName, "新規") + " " + Or(input.firstName, "ユーザー"))
  }

  /**
   * As written, the display name uses the two defaults the other way round
   * from the name fields: it is consistent exactly when both names are given.
   */
  lemma SignupAsWrittenNameConsistency(input: Input, id: string)
    ensures NameConsistent(SignupUserAsWritten(input, id)) <==>
      (input.firstName != "" && input.lastName != "")
  {
    var u := SignupUserAsWritten(input, id);
    if input.lastName == "" {
      assert u.name[0] == '新' && u.lastName[0] == 'ユ';
      assert (u.lastName + " " + u.firstName)[0] == 'ユ';
    } else if input.firstName == "" {
      assert |u.name| == |input.lastName| + 5;
      assert |u.lastName + " " + u.firstName| == |input.lastName| + 3;
    }
  }

  /** Signing up with no names gives a user whose name disagrees with its fields. */
  lemma SignupAsWrittenCounterexample()
    ensures SignupUserAsWritten(NoInput, "mock-1").name == "新規 ユーザー"
    ensures SignupUserAsWritten(NoInput, "mock-1").lastName + " " +
            SignupUserAsWritten(NoInput, "mock-1").firstName == "ユーザー 新規"
    ensures !NameConsistent(SignupUserAsWritten(NoInput, "mock-1"))
  {
    SignupAsWrittenNameConsistency(NoInput, "mock-1");
  }

  /** The new user record, display name derived from the defaulted fields. */
  function SignupUser(input: Input, id: string): (u: User)
    ensures NameConsistent(u)
    ensures u.id == id && u.avatarId == 1
    ensures u.firstName == (if input.firstName != "" then input.firstName else "新規")
    ensures u.lastName == (if input.lastName != "" then input.lastName else "ユーザー")
  {
    var first := Or(input.firstName, "新規");
    var last := Or(input.lastName, "ユーザー");
    User(id, first, last, Or(input.email, "new@example.com"), Or(input.icon, Placeholder64), 1,
         last + " " + first)
  }

  /** Where the two agree: when both names are given. */
  lemma SignupUserAgreesWhenNamed(input: Input, id: string)
    requires input.firstName != "" && input.lastName != ""
    ensures SignupUser(input, id) == SignupUserAsWritten(input, id)
  {
  }

  function NewGroup(input: Input, creator: User, f: Fresh): (g: Group)
    ensures g.members == [MemberOf(creator)] && g.id == f.id
    ensures g.name == (if input.name != "" then input.name else "新しいグループ")
    ensures g.inviteCode == Upper(f.code)
  {
    Group(f.id, Or(input.name, "新しいグループ"), [MemberOf(creator)], Upper(f.code))
  }

  function NewEvent(input: Input, user: User, f: Fresh): (e: Event)
    requires input.groupId.Some?
    ensures e.userId == user.id && e.userName == UserName(user)
    ensures e.groupId == input.groupId.value && e.title == input.title
    ensures e.isImportant == input.isImportant && e.isCommute == input.isCommute
    ensures e.note == input.note
    ensures e.id == f.id && e.startTime == input.startTime && e.endTime == input.endTime
    ensures e.userAvatarId == AvatarOr1(user.avatarId)
  {
    // `note || ""` keeps the note: the missing note is "" already
    Event(f.id, input.title, input.startTime, input.endTime, input.isImportant,
          input.isCommute, input.note, user.id, UserName(user), AvatarOr1(user.avatarId),
          input.groupId.value)
  }

  function NewCar(input: Input, owner: User, f: Fresh): (c: Car)
    ensures c.available && c.owner == owner && c.id == f.id
    ensures c.pricePerDay == (if input.pricePerDay != 0 then input.pricePerDay else 5000)
  {
    Car(f.id, Or(input.name, "新しい車"), Or(input.model, "モデル"), IntOr(input.year, 2023),
        Or(input.licensePlate, "品川 500 あ 0000"), Or(input.location, "東京都"),
        IntOr(input.pricePerDay, 5000), true, Or(input.imageUrl, Placeholder200), owner)
  }

  const MsPerDay := 1000 * 60 * 60 * 24

  /** `Math.ceil((end - start) / MsPerDay)`: the fewest whole days covering the span. */
  function DayCount(start: int, end: int): (d: int)
    ensures (d - 1) * MsPerDay < end - start <= d * MsPerDay
  {
    -((start - end) / MsPerDay)
  }

  /** The reservation price: per-day price times the day count, or 0 with no car. */
  function TotalPrice(car: Option<Car>, start: int, end: int): int {
    if car.Some? then car.value.pricePerDay * DayCount(start, end) else 0
  }

  /** `find`: the first stored car with the id, if any. */
  function CarById(cars: seq<Car>, id: Option<string>): (r: Option<Car>)
    ensures r.Some? ==> r.value in cars && Some(r.value.id) == id
    ensures r.Some? ==>
      exists i :: 0 <= i < |cars| && cars[i] == r.value && forall j :: 0 <= j < i ==> Some(cars[j].id) != id
    ensures r.None? <==> forall c :: c in cars ==> Some(c.id) != id
  {
    Seqs.Find(cars, (c: Car) => Some(c.id) == id)
  }

  function NewReservation(cars: seq<Car>, input: Input, user: User, f: Fresh): (r: Reservation)
    ensures r.status == Confirmed && r.user == user && r.id == f.id
    ensures r.car == CarById(cars, input.carId)
    ensures r.totalPrice == TotalPrice(r.car, input.startDate, input.endDate)
  {
    var car := CarById(cars, input.carId);
    Reservation(f.id, input.startDate, input.endDate,
                TotalPrice(car, input.startDate, input.endDate), Confirmed, car, user)
  }

  /** The current user with the given fields merged in and the name recomputed. */
  function UpdatedUser(u: User, input: Input): (r: User)
    ensures NameConsistent(r)
    ensures r.id == u.id && r.email == u.email && r.avatarId == u.avatarId
    ensures r.firstName == (if input.firstName != "" then input.firstName else u.firstName)
    ensures r.lastName == (if input.lastName != "" then input.lastName else u.lastName)
    ensures r.icon == (if input.icon != "" then input.icon else u.icon)
  {
    var first := Or(input.firstName, u.firstName);
    var last := Or(input.lastName, u.lastName);
    u.(firstName := first, lastName := last, icon := Or(input.icon, u.icon),
       name := last + " " + first)
  }

  // ------------------------------------------------------- read handlers

  datatype GroupSummary = GroupSummary(id: string, name: string)

  function Summary(g: Group): GroupSummary {
    GroupSummary(g.id, g.name)
  }

  /** `myGroups`: id and name of each group the user belongs to, in store order. */
  function MyGroups(groups: seq<Group>, userId: string): (r: seq<GroupSummary>)
    ensures |r| <= |groups|
    ensures forall x :: x in r ==> exists g :: g in groups && IsMember(g, userId) && x == Summary(g)
    ensures forall g :: g in groups && IsMember(g, userId) ==> Summary(g) in r
  {
    var mine := Seqs.Filter(groups, (g: Group) => IsMember(g, userId));
    var r := seq(|mine|, i requires 0 <= i < |mine| => Summary(mine[i]));
    assert forall g :: g in mine ==> Summary(g) in r by {
      forall g | g in mine ensures Summary(g) in r {
        var i :| 0 <= i < |mine| && mine[i] == g;
        assert r[i] == Summary(g);
      }
    }
    assert forall x :: x in r ==> exists g :: g in mine && x == Summary(g) by {
      forall x | x in r ensures exists g :: g in mine && x == Summary(g) {
        var i :| 0 <= i < |r| && r[i] == x;
        assert mine[i] in mine;
      }
    }
    r
  }

  /** The listing keeps store order: it distributes over concatenation. */
  lemma MyGroupsAppend(a: seq<Group>, b: seq<Group>, userId: string)
    ensures MyGroups(a + b, userId) == MyGroups(a, userId) + MyGroups(b, userId)
  {
    var p := (g: Group) => IsMember(g, userId);
    Seqs.FilterAppend(a, b, p);
    var ma, mb := Seqs.Filter(a, p), Seqs.Filter(b, p);
    var r := MyGroups(a + b, userId);
    var ra, rb := MyGroups(a, userId), MyGroups(b, userId);
    assert |r| == |ra| + |rb|;
    forall i | 0 <= i < |r| ensures r[i] == (ra + rb)[i] {
      if i < |ma| {
        assert r[i] == Summary(ma[i]);
      } else {
        assert r[i] == Summary(mb[i - |ma|]);
      }
    }
  }

  /** One group is listed, as its summary, exactly when the user belongs to it. */
  lemma MyGroupsSingle(g: Group, userId: string)
    ensures MyGroups([g], userId) == if IsMember(g, userId) then [Summary(g)] else []
  {
    assert [g][1..] == [];
  }

  /** `groupEvents`: the events of one group, in store order; no date filter. */
  function GroupEvents(events: seq<Event>, groupId: Option<string>): (r: seq<Event>)
    ensures forall e :: e in r <==> e in events && Some(e.groupId) == groupId
  {
    Seqs.Filter(events, (e: Event) => Some(e.groupId) == groupId)
  }

  /** The listing keeps store order: it distributes over concatenation. */
  lemma GroupEventsAppend(a: seq<Event>, b: seq<Event>, groupId: Option<string>)
    ensures GroupEvents(a + b, groupId) == GroupEvents(a, groupId) + GroupEvents(b, groupId)
  {
    Seqs.FilterAppend(a, b, (e: Event) => Some(e.groupId) == groupId);
  }

  /** One event is listed exactly when it belongs to the requested group. */
  lemma GroupEventsSingle(e: Event, groupId: Option<string>)
    ensures GroupEvents([e], groupId) == if Some(e.groupId) == groupId then [e] else []
  {
    assert [e][1..] == [];
  }

  /** `find`: the first stored group with the code; codes can repeat. */
  function GroupByInviteCode(groups: seq<Group>, code: Option<string>): (r: Option<Group>)
    ensures r.Some? ==> r.value in groups && Some(r.value.inviteCode) == code
    ensures r.Some? ==>
      exists i :: 0 <= i < |groups| && groups[i] == r.value && forall j :: 0 <= j < i ==> Some(groups[j].inviteCode) != code
    ensures r == (match GroupIndexByCode(groups, code) case Some(i) => Some(groups[i]) case None => None)
    ensures r.None? <==> forall g :: g in groups ==> Some(g.inviteCode) != code
  {
    Seqs.Find(groups, (g: Group) => Some(g.inviteCode) == code)
  }

  /** The car list exactly as the handler filters it: `filter.available !== false || car.available`. */
  function AvailableCarsAsWritten(cars: seq<Car>, available: Option<bool>): seq<Car> {
    Seqs.Filter(cars, (c: Car) => available != Some(false) || c.available)
  }

  /** As written, a request for available cars only gets every car, and `false` gets only available ones. */
  lemma AvailableCarsAsWrittenInverted(cars: seq<Car>, available: Option<bool>)
    ensures available != Some(false) ==> AvailableCarsAsWritten(cars, available) == cars
    ensures available == Some(false) ==>
      forall c :: c in AvailableCarsAsWritten(cars, available) <==> c in cars && c.available
  {
    if available != Some(false) {
      Seqs.FilterAll(cars, (c: Car) => available != Some(false) || c.available);
    }
  }

  /** The cars page asks for available cars only, and the seed's unavailable car comes back. */
  lemma AvailableCarsAsWrittenCounterexample()
    ensures Note in AvailableCarsAsWritten(MockCars, Some(true)) && !Note.available
  {
    AvailableCarsAsWrittenInverted(MockCars, Some(true));
  }

  /** The car list with `filter.available: true` keeping only available cars. */
  function AvailableCars(cars: seq<Car>, available: Option<bool>): (r: seq<Car>)
    ensures available == Some(true) ==> forall c :: c in r <==> c in cars && c.available
  {
    Seqs.Filter(cars, (c: Car) => available != Some(true) || c.available)
  }

  /** The filtered list keeps store order: it distributes over concatenation of the car list. */
  lemma AvailableCarsAppend(a: seq<Car>, b: seq<Car>, available: Option<bool>)
    ensures AvailableCars(a + b, available) == AvailableCars(a, available) + AvailableCars(b, available)
  {
    Seqs.FilterAppend(a, b, (c: Car) => available != Some(true) || c.available);
  }

  /** With the available-only filter one car is listed exactly when it is available. */
  lemma AvailableCarsSingle(c: Car)
    ensures AvailableCars([c], Some(true)) == if c.available then [c] else []
  {
    assert [c][1..] == [];
  }

  /** Without the available-only filter every car is listed, in order. */
  lemma AvailableCarsUnfiltered(cars: seq<Car>, available: Option<bool>)
    requires available != Some(true)
    ensures AvailableCars(cars, available) == cars
  {
    Seqs.FilterAll(cars, (c: Car) => available != Some(true) || c.available);
  }

  /** The reservation's car is listed and owned by `userId`. */
  predicate OnOwnedCar(cars: seq<Car>, r: Reservation, userId: string) {
    r.car.Some? && exists c :: c in cars && c.id == r.car.value.id && c.owner.id == userId
  }

  /**
   * `myReservations` and `carReservations`. Reading `r.car.id` of a
   * reservation without a car throws as soon as there is a car to compare.
   */
  function ReservationLists(s: Store): (r: Result<(seq<Reservation>, seq<Reservation>), Failure>)
    ensures r.Err? <==> |s.cars| > 0 && exists x :: x in s.reservations && x.car.None?
    ensures r.Ok? ==> r.value.0 == OwnReservations(s)
    ensures r.Ok? ==> forall x :: x in r.value.0 <==> x in s.reservations && x.user.id == s.currentUser.id
    ensures r.Ok? ==> forall x :: x in r.value.1 <==> x in s.reservations && OnOwnedCar(s.cars, x, s.currentUser.id)
  {
    if |s.cars| > 0 && exists x :: x in s.reservations && x.car.None? then Err(TypeError)
    else
      Ok((Seqs.Filter(s.reservations, (x: Reservation) => x.user.id == s.currentUser.id),
          Seqs.Filter(s.reservations, (x: Reservation) => OnOwnedCar(s.cars, x, s.currentUser.id))))
  }

  /**
   * Both lists keep store order: a reservation appended to the store comes
   * last in each list it belongs to, and the lists fail only for a
   * reservation without a car while cars exist.
   */
  lemma ReservationListsAppend(s: Store, x: Reservation)
    ensures var t := s.(reservations := s.reservations + [x]);
      ReservationLists(t).Ok? <==> ReservationLists(s).Ok? && (x.car.Some? || |s.cars| == 0)
    ensures var t := s.(reservations := s.reservations + [x]);
      ReservationLists(t).Ok? ==>
        ReservationLists(t).value.0 == ReservationLists(s).value.0 + (if x.user.id == s.currentUser.id then [x] else []) &&
        ReservationLists(t).value.1 == ReservationLists(s).value.1 + (if OnOwnedCar(s.cars, x, s.currentUser.id) then [x] else [])
  {
    var t := s.(reservations := s.reservations + [x]);
    var own := (y: Reservation) => y.user.id == s.currentUser.id;
    var onOwned := (y: Reservation) => OnOwnedCar(s.cars, y, s.currentUser.id);
    Seqs.FilterAppend(s.reservations, [x], own);
    Seqs.FilterAppend(s.reservations, [x], onOwned);
    assert [x][1..] == [];
    assert forall y :: y in t.reservations <==> y in s.reservations || y == x;
  }

  datatype Dashboard = Dashboard(stats: UserStats, myCars: seq<Car>, myReservations: seq<Reservation>)

  /** The current user's own cars, in store order. */
  function OwnCars(s: Store): (r: seq<Car>)
    ensures forall c :: c in r <==> c in s.cars && c.owner.id == s.currentUser.id
  {
    Seqs.Filter(s.cars, (c: Car) => c.owner.id == s.currentUser.id)
  }

  /** The current user's own reservations, in store order. */
  function OwnReservations(s: Store): (r: seq<Reservation>)
    ensures forall x :: x in r <==> x in s.reservations && x.user.id == s.currentUser.id
  {
    Seqs.Filter(s.reservations, (x: Reservation) => x.user.id == s.currentUser.id)
  }

  /** Own cars keep store order: a car appended to the store comes last, if it is the user's. */
  lemma OwnCarsAppend(s: Store, c: Car)
    ensures OwnCars(s.(cars := s.cars + [c])) ==
      OwnCars(s) + (if c.owner.id == s.currentUser.id then [c] else [])
  {
    var p := (x: Car) => x.owner.id == s.currentUser.id;
    Seqs.FilterAppend(s.cars, [c], p);
    assert [c][1..] == [];
  }

  /** Own reservations keep store order: a reservation appended to the store comes last, if it is the user's. */
  lemma OwnReservationsAppend(s: Store, x: Reservation)
    ensures OwnReservations(s.(reservations := s.reservations + [x])) ==
      OwnReservations(s) + (if x.user.id == s.currentUser.id then [x] else [])
  {
    var p := (y: Reservation) => y.user.id == s.currentUser.id;
    Seqs.FilterAppend(s.reservations, [x], p);
    assert [x][1..] == [];
  }

  /** Static counters, and the first three own cars and own reservations. */
  function DashboardData(s: Store): (d: Dashboard)
    ensures d.stats == MockUserStats
    ensures |d.myCars| == Text.Min(3, |OwnCars(s)|) && d.myCars <= OwnCars(s)
    ensures |d.myReservations| == Text.Min(3, |OwnReservations(s)|) && d.myReservations <= OwnReservations(s)
  {
    Dashboard(MockUserStats, Seqs.Prefix(OwnCars(s), 3), Seqs.Prefix(OwnReservations(s), 3))
  }

  /** Every listed car is the user's own stored car, and every listed reservation the user's own. */
  lemma DashboardListsOwnItems(s: Store)
    ensures forall c :: c in DashboardData(s).myCars ==> c in s.cars && c.owner.id == s.currentUser.id
    ensures forall x :: x in DashboardData(s).myReservations ==> x in s.reservations && x.user.id == s.currentUser.id
  {
    var d := DashboardData(s);
    forall c | c in d.myCars ensures c in OwnCars(s) {
      var i :| 0 <= i < |d.myCars| && d.myCars[i] == c;
      assert OwnCars(s)[i] == c;
    }
    forall x | x in d.myReservations ensures x in OwnReservations(s) {
      var i :| 0 <= i < |d.myReservations| && d.myReservations[i] == x;
      assert OwnReservations(s)[i] == x;
    }
  }

  // ------------------------------------------------------ write handlers

  function GroupIndexByCode(groups: seq<Group>, code: Option<string>): Option<nat> {
    Seqs.FirstIndex(groups, (g: Group) => Some(g.inviteCode) == code)
  }

  function EventIndexById(events: seq<Event>, id: Option<string>): Option<nat> {
    Seqs.FirstIndex(events, (e: Event) => Some(e.id) == id)
  }

  function ReservationIndexById(reservations: seq<Reservation>, id: Option<string>): Option<nat> {
    Seqs.FirstIndex(reservations, (r: Reservation) => Some(r.id) == id)
  }

  function UserIndexById(users: seq<User>, id: string): Option<nat> {
    Seqs.FirstIndex(users, (u: User) => u.id == id)
  }

  function SignupStep(s: Store, input: Input, f: Fresh): (Store, User) {
    var u := SignupUser(input, f.id);
    (s.(users := s.users + [u], currentUser := u), u)
  }

  /** The signup step with the user record exactly as the handler writes it. */
  function SignupStepAsWritten(s: Store, input: Input, f: Fresh): (Store, User) {
    var u := SignupUserAsWritten(input, f.id);
    (s.(users := s.users + [u], currentUser := u), u)
  }

  /**
   * As written, signing up keeps the store invariant exactly when both
   * names are given: a missing name stores a user whose display name
   * disagrees with its fields.
   */
  lemma SignupAsWrittenKeepsInvIffNamed(s: Store, input: Input, f: Fresh)
    requires Inv(s)
    ensures Inv(SignupStepAsWritten(s, input, f).0) <==> input.firstName != "" && input.lastName != ""
  {
    var u := SignupUserAsWritten(input, f.id);
    var s' := SignupStepAsWritten(s, input, f).0;
    SignupAsWrittenNameConsistency(input, f.id);
    assert u in s'.users;
    forall v | v in s'.users && NameConsistent(u) ensures NameConsistent(v) {
      if v != u { assert v in s.users; }
    }
  }

  function CreateGroupStep(s: Store, input: Input, f: Fresh): (Store, Group) {
    var g := NewGroup(input, s.currentUser, f);
    (s.(groups := s.groups + [g]), g)
  }

  function JoinGroupStep(s: Store, code: Option<string>): (Store, Result<Group, Failure>) {
    match GroupIndexByCode(s.groups, code)
    case None => (s, Err(Rejected(InvalidInviteCode)))
    case Some(i) =>
      var g := s.groups[i];
      if IsMember(g, s.currentUser.id) then (s, Ok(g))
      else
        var joined := g.(members := g.members + [MemberOf(s.currentUser)]);
        (s.(groups := s.groups[i := joined]), Ok(joined))
  }

  function CreateEventStep(s: Store, input: Input, f: Fresh): (Store, Result<Event, Failure>) {
    if !Truthy(input.groupId) then (s, Err(Rejected(MissingGroupId)))
    else if input.title == "" then (s, Err(Rejected(MissingTitle)))
    else
      var e := NewEvent(input, s.currentUser, f);
      (s.(events := s.events + [e]), Ok(e))
  }

  /** Removes the first event with the id; the answer is always `true`. */
  function DeleteEventStep(s: Store, id: Option<string>): (Store, bool) {
    match EventIndexById(s.events, id)
    case None => (s, true)
    case Some(i) => (s.(events := s.events[..i] + s.events[i + 1..]), true)
  }

  function CreateCarStep(s: Store, input: Input, f: Fresh): (Store, Car) {
    var c := NewCar(input, s.currentUser, f);
    (s.(cars := s.cars + [c]), c)
  }

  function CreateReservationStep(s: Store, input: Input, f: Fresh): (Store, Reservation) {
    var r := NewReservation(s.cars, input, s.currentUser, f);
    (s.(reservations := s.reservations + [r]), r)
  }

  function CancelReservationStep(s: Store, id: Option<string>): (Store, Option<Reservation>) {
    match ReservationIndexById(s.reservations, id)
    case None => (s, None)
    case Some(i) =>
      var r := s.reservations[i].(status := Cancelled);
      (s.(reservations := s.reservations[i := r]), Some(r))
  }

  function UpdateProfileStep(s: Store, input: Option<Input>): (Store, Result<User, Failure>) {
    if input.None? then (s, Err(Rejected(MissingProfileInput)))
    else
      var u := UpdatedUser(s.currentUser, input.value);
      var users := match UserIndexById(s.users, u.id)
        case None => s.users
        case Some(i) => s.users[i := u];
      (s.(users := users, currentUser := u), Ok(u))
  }
}

