/**
 * The entities of the car-sharing mock backend and the seed collections
 * that form its initial store (`MOCK_USERS`, `MOCK_GROUPS`, `MOCK_CARS`,
 * `MOCK_RESERVATIONS`, `MOCK_EVENTS`, `MOCK_USER_STATS`).
 *
 * Timestamps are epoch milliseconds (UTC); the seed's ISO strings are
 * written as their millisecond values.
 */
module MockData {
  import opened Wrappers

  /** A user record. `name` is the derived display name. */
  datatype User = User(
    id: string, firstName: string, lastName: string, email: string,
    icon: string, avatarId: int, name: string)

  /** A group member entry, a copy of some user's id, name and avatar. */
  datatype Member = Member(id: string, name: string, avatarId: int)

  datatype Group = Group(id: string, name: string, members: seq<Member>, inviteCode: string)

  datatype Car = Car(
    id: string, name: string, model: string, year: int, licensePlate: string,
    location: string, pricePerDay: int, available: bool, imageUrl: string, owner: User)

  datatype Status = Pending | Confirmed | Cancelled

  /** `car` is absent when the reservation was made for an unknown car id. */
  datatype Reservation = Reservation(
    id: string, startDate: int, endDate: int, totalPrice: int, status: Status,
    car: Option<Car>, user: User)

  /** A calendar entry of a group. */
  datatype Event = Event(
    id: string, title: string, startTime: int, endTime: int, isImportant: bool,
    isCommute: bool, note: string, userId: string, userName: string,
    userAvatarId: int, groupId: string)

  datatype UserStats = UserStats(totalCars: int, totalReservations: int, upcomingReservations: int)

  const Placeholder64 := "/placeholder.svg?height=64&width=64"
  const Placeholder200 := "/placeholder.svg?height=200&width=300"

  /** The display name every user record is meant to carry: "姓 名". */
  predicate NameConsistent(u: User) {
    u.name == u.lastName + " " + u.firstName
  }

  /** No user appears twice among a group's members. */
  predicate MemberIdsDistinct(g: Group) {
    forall i, j :: 0 <= i < j < |g.members| ==> g.members[i].id != g.members[j].id
  }

  /** No two groups share an invite code. */
  predicate InviteCodesDistinct(groups: seq<Group>) {
    forall i, j :: 0 <= i < j < |groups| ==> groups[i].inviteCode != groups[j].inviteCode
  }

  predicate IsUserId(users: seq<User>, id: string) {
    exists u :: u in users && u.id == id
  }

  // ---------------------------------------------------------------- seeds

  const Taro := User("user-1", "太郎", "田中", "taro@example.com", Placeholder64, 1, "田中 太郎")
  const Hanako := User("user-2", "花子", "佐藤", "hanako@example.com", Placeholder64, 2, "佐藤 花子")
  const Jiro := User("user-3", "次郎", "鈴木", "jiro@example.com", Placeholder64, 3, "鈴木 次郎")

  const MockUsers: seq<User> := [Taro, Hanako, Jiro]

  function SeedMember(u: User): Member {
    Member(u.id, u.name, u.avatarId)
  }

  const MockGroups: seq<Group> := [
    Group("group-1", "大学サークル", [SeedMember(Taro), SeedMember(Hanako), SeedMember(Jiro)], "ABC123"),
    Group("group-2", "友達グループ", [SeedMember(Taro), SeedMember(Hanako)], "DEF456")
  ]

  const Prius := Car("car-1", "トヨタ", "プリウス", 2020, "品川 500 あ 1234", "東京都渋谷区",
                     5000, true, Placeholder200, Taro)
  const Fit := Car("car-2", "ホンダ", "フィット", 2019, "品川 500 あ 5678", "東京都新宿区",
                   4000, true, Placeholder200, Hanako)
  const Note := Car("car-3", "日産", "ノート", 2021, "品川 500 あ 9012", "東京都池袋区",
                    4500, false, Placeholder200, Jiro)

  const MockCars: seq<Car> := [Prius, Fit, Note]

  const MockReservations: seq<Reservation> := [
    // 2024-01-20T09:00:00Z .. 2024-01-20T18:00:00Z
    Reservation("reservation-1", 1705741200000, 1705773600000, 5000, Confirmed, Some(Prius), Taro),
    // 2024-01-22T10:00:00Z .. 2024-01-22T16:00:00Z
    Reservation("reservation-2", 1705917600000, 1705939200000, 4000, Pending, Some(Fit), Hanako)
  ]

  const MockEvents: seq<Event> := [
    // 2024-01-20T08:00:00Z .. 2024-01-20T18:00:00Z
    Event("event-1", "大学へ通学", 1705737600000, 1705773600000, true, true,
          "朝の授業があるので早めに出発します", "user-1", "田中 太郎", 1, "group-1"),
    // 2024-01-21T14:00:00Z .. 2024-01-21T17:00:00Z
    Event("event-2", "買い物", 1705845600000, 1705856400000, false, false,
          "週末の買い物に使用", "user-2", "佐藤 花子", 2, "group-1"),
    // 2024-01-22T10:00:00Z .. 2024-01-22T12:00:00Z
    Event("event-3", "病院", 1705917600000, 1705924800000, true, false,
          "定期検診のため", "user-3", "鈴木 次郎", 3, "group-1")
  ]

  const MockUserStats := UserStats(2, 5, 2)

  // ------------------------------------------------- seed well-formedness

  lemma SeedInviteCodesDistinct()
    ensures InviteCodesDistinct(MockGroups)
    ensures MockGroups[0].inviteCode == "ABC123" && MockGroups[1].inviteCode == "DEF456"
  {
  }

  /** Each seeded group lists distinct members, each a copy of a seeded user. */
  lemma SeedGroupMembers()
    ensures forall g :: g in MockGroups ==> MemberIdsDistinct(g)
    ensures forall g, m :: g in MockGroups && m in g.members ==>
      exists u :: u in MockUsers && m == SeedMember(u)
  {
    forall g, m | g in MockGroups && m in g.members
      ensures exists u :: u in MockUsers && m == SeedMember(u)
    {
      assert m == SeedMember(Taro) || m == SeedMember(Hanako) || m == SeedMember(Jiro);
    }
  }

  lemma SeedUserNames()
    ensures forall u :: u in MockUsers ==> NameConsistent(u)
    ensures forall i, j :: 0 <= i < j < |MockUsers| ==> MockUsers[i].id != MockUsers[j].id
  {
  }

  lemma SeedCars()
    ensures forall c :: c in MockCars ==> c.pricePerDay > 0 && c.owner in MockUsers
    ensures forall i, j :: 0 <= i < j < |MockCars| ==> MockCars[i].id != MockCars[j].id
  {
  }

  lemma SeedReservations()
    ensures forall r :: r in MockReservations ==>
      && r.car.Some? && r.car.value in MockCars
      && r.user in MockUsers
      && r.status in {Confirmed, Pending}
      && r.startDate <= r.endDate
  {
  }

  lemma SeedEvents()
    ensures forall e :: e in MockEvents ==>
      && (exists g :: g in MockGroups && g.id == e.groupId)
      && (exists u :: u in MockUsers && u.id == e.userId && u.name == e.userName && u.avatarId == e.userAvatarId)
      && e.startTime < e.endTime
  {
    forall e | e in MockEvents
      ensures exists g :: g in MockGroups && g.id == e.groupId
      ensures exists u :: u in MockUsers && u.id == e.userId && u.name == e.userName && u.avatarId == e.userAvatarId
    {
      assert MockGroups[0].id == e.groupId;
      assert e == MockEvents[0] || e == MockEvents[1] || e == MockEvents[2];
      if e == MockEvents[0] { assert MockUsers[0].id == e.userId; }
      else if e == MockEvents[1] { assert MockUsers[1].id == e.userId; }
      else { assert MockUsers[2].id == e.userId; }
    }
  }
}
