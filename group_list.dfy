/**
 * `components/group-list.tsx`: the text helpers of the group cards. A member
 * may be missing (`null`); a group's `members` list and `inviteCode` are
 * optional, with "" standing for a missing code. Case mapping is ASCII only.
 */
module GroupList {
  import opened Wrappers
  import Text
  import opened MockData
  import MockHandlers

  datatype ListGroup = ListGroup(id: string, name: string, members: Option<seq<Member>>, inviteCode: string)

  const UnknownUser := "不明なユーザー"
  const UserPrefix := "ユーザー "

  /** `getDisplayName`: the name, or "ユーザー " and at most eight characters of the id. */
  function DisplayName(m: Option<Member>): (r: string)
    ensures r != ""
    ensures m.None? ==> r == UnknownUser
    ensures m.Some? && m.value.name != "" ==> r == m.value.name
    ensures m.Some? && m.value.name == "" ==>
      Text.StartsWith(r, UserPrefix) && |r| == |UserPrefix| + Text.Min(8, |m.value.id|)
      && Text.StartsWith(m.value.id, r[|UserPrefix|..])
  {
    if m.None? then UnknownUser
    else if m.value.name != "" then m.value.name
    else
      var r := UserPrefix + Text.Take(m.value.id, 8);
      assert r[|UserPrefix|..] == Text.Take(m.value.id, 8);
      r
  }

  /**
   * `getAvatarFallback`: two characters of a name that has at least two,
   * else up to two characters of the id, upper-cased, else "?".
   */
  function AvatarFallback(m: Option<Member>): (r: string)
    ensures 1 <= |r| <= 2
    ensures m.None? ==> r == "?"
    ensures m.Some? && |m.value.name| >= 2 ==> r == m.value.name[..2]
    ensures m.Some? && |m.value.name| < 2 && m.value.id != "" ==>
      |r| == Text.Min(2, |m.value.id|) && r == Text.Upper(m.value.id[..|r|])
    ensures m.Some? && |m.value.name| < 2 && m.value.id == "" ==> r == "?"
  {
    if m.None? then "?"
    else if |m.value.name| >= 2 then m.value.name[..2]
    else if m.value.id != "" then Text.Upper(Text.Take(m.value.id, 2))
    else "?"
  }

  /** A one-character name is not used: the fallback is the same as with no name at all. */
  lemma ShortNameIgnored(m: Member)
    requires |m.name| < 2
    ensures AvatarFallback(Some(m)) == AvatarFallback(Some(m.(name := "")))
  {
  }

  /** The code put in the invite link and the QR code: the invite code, or else the group id. */
  function ShareCode(g: ListGroup): (r: string)
    ensures g.inviteCode != "" ==> r == g.inviteCode
    ensures g.inviteCode == "" ==> r == g.id
  {
    Text.Or(g.inviteCode, g.id)
  }

  /** The member count shown on the card. */
  function MemberCount(g: ListGroup): (n: nat)
    ensures g.members.None? ==> n == 0
    ensures g.members.Some? ==> n == |g.members.value|
  {
    if g.members.Some? then |g.members.value| else 0
  }

  /** The card for a group of the store, as a backend that returns every field would list it. */
  function FullListing(g: Group): ListGroup {
    ListGroup(g.id, g.name, Some(g.members), g.inviteCode)
  }

  /** The card for a `GetMyGroups` answer of the mock backend, which has only id and name. */
  function MockListing(x: MockHandlers.GroupSummary): ListGroup {
    ListGroup(x.id, x.name, None, "")
  }

  /**
   * Sharing works: when invite codes are distinct, the shared code of a
   * group with a code looks up exactly that group.
   */
  lemma SharedCodeFindsGroup(groups: seq<Group>, g: Group)
    requires InviteCodesDistinct(groups) && g in groups && g.inviteCode != ""
    ensures MockHandlers.GroupByInviteCode(groups, Some(ShareCode(FullListing(g)))) == Some(g)
  {
    var r := MockHandlers.GroupByInviteCode(groups, Some(g.inviteCode));
    assert r.Some?;
    var i :| 0 <= i < |groups| && groups[i] == r.value;
    var j :| 0 <= j < |groups| && groups[j] == g;
    assert !(i < j) && !(j < i);
  }

  /**
   * Against the mock backend a listed group shows no members and shares its
   * id, so the shared code finds no group unless some invite code equals that id.
   */
  lemma MockListingSharesId(groups: seq<Group>, x: MockHandlers.GroupSummary)
    requires forall g :: g in groups ==> g.inviteCode != x.id
    ensures MemberCount(MockListing(x)) == 0
    ensures ShareCode(MockListing(x)) == x.id
    ensures MockHandlers.GroupByInviteCode(groups, Some(ShareCode(MockListing(x)))) == None
  {
  }
}
