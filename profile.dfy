/**
 * `app/profile/page.tsx`: the avatar table that maps an avatar id to its
 * icon URL, the reverse lookup that fills the form from the signed-in user,
 * and the icon chosen on submit.
 */
module Profile {
  import opened Wrappers
  import Seqs
  import Auth

  const AvatarUrls: map<int, string> := map[
    1 := "https://example.com/avatar-1.png",
    2 := "https://example.com/avatar-2.png",
    3 := "https://example.com/avatar-3.png",
    4 := "https://example.com/avatar-4.png",
    5 := "https://example.com/avatar-5.png",
    6 := "https://example.com/avatar-6.png"
  ]

  /** The table's keys in the order `Object.entries` lists integer keys: ascending. */
  const AvatarIds: seq<int> := [1, 2, 3, 4, 5, 6]

  const DefaultAvatarUrl := "https://example.com/avatar-1.png"

  /** Forward lookup with the `|| avatarUrls[1]` fallback. */
  function AvatarUrl(k: int): (url: string)
    ensures 1 <= k <= 6 ==> url == AvatarUrls[k]
    ensures !(1 <= k <= 6) ==> url == DefaultAvatarUrl
  {
    if k in AvatarUrls then AvatarUrls[k] else AvatarUrls[1]
  }

  /** Whether the table maps id `j` to `icon`. */
  function HasIcon(icon: string): int -> bool {
    j => j in AvatarUrls && AvatarUrls[j] == icon
  }

  /** Reverse lookup: the first key whose URL equals `icon`, or 1 when there is none. */
  function AvatarIdOf(icon: string): (k: int)
    ensures 1 <= k <= 6
    ensures icon in AvatarUrls.Values ==> AvatarUrls[k] == icon
    ensures icon !in AvatarUrls.Values ==> k == 1
  {
    match Seqs.Find(AvatarIds, HasIcon(icon))
    case Some(k) => k
    case None =>
      NoIdMeansUnknownIcon(icon);
      1
  }

  /** When no listed id has the icon, the icon is none of the table's URLs. */
  lemma NoIdMeansUnknownIcon(icon: string)
    requires Seqs.Find(AvatarIds, HasIcon(icon)).None?
    ensures icon !in AvatarUrls.Values
  {
    forall j | j in AvatarUrls ensures AvatarUrls[j] != icon {
      assert AvatarIds[j - 1] == j;
      assert !HasIcon(icon)(AvatarIds[j - 1]);
    }
  }

  /** The six URLs are pairwise distinct. */
  lemma UrlsDistinct()
    ensures forall i, j :: i in AvatarUrls && j in AvatarUrls && i != j ==> AvatarUrls[i] != AvatarUrls[j]
  {
  }

  /** Every listed avatar id survives the round trip through its URL. */
  lemma IdRoundTrip(k: int)
    requires 1 <= k <= 6
    ensures AvatarIdOf(AvatarUrl(k)) == k
  {
    UrlsDistinct();
  }

  /** An icon outside the table comes back as the avatar-1 URL. */
  lemma UnknownIconFallsBack(icon: string)
    requires icon !in AvatarUrls.Values
    ensures AvatarUrl(AvatarIdOf(icon)) == DefaultAvatarUrl
  {
  }

  /** An id outside 1..6 is sent as the avatar-1 URL. */
  lemma UnknownIdFallsBack(k: int)
    requires !(1 <= k <= 6)
    ensures AvatarUrl(k) == DefaultAvatarUrl && AvatarIdOf(AvatarUrl(k)) == 1
  {
    IdRoundTrip(1);
  }

  /** The editable form state. */
  datatype ProfileForm = ProfileForm(firstName: string, lastName: string, avatarId: int)

  /** The `UpdateProfile` input the form sends. */
  datatype ProfileInput = ProfileInput(firstName: string, lastName: string, icon: string)

  /** The form as the effect fills it from the signed-in user (`|| ""` on both names). */
  function InitialForm(u: Auth.User): (f: ProfileForm)
    ensures f.firstName == u.firstName && f.lastName == u.lastName
    ensures f.avatarId == AvatarIdOf(u.icon) && 1 <= f.avatarId <= 6
    ensures u.icon in AvatarUrls.Values ==> AvatarUrl(f.avatarId) == u.icon
  {
    ProfileForm(u.firstName, u.lastName, AvatarIdOf(u.icon))
  }

  function SubmitInput(f: ProfileForm): (input: ProfileInput)
    ensures input.firstName == f.firstName && input.lastName == f.lastName
    ensures input.icon == AvatarUrl(f.avatarId) && input.icon in AvatarUrls.Values
  {
    ProfileInput(f.firstName, f.lastName, AvatarUrl(f.avatarId))
  }

  /**
   * Saving the form untouched sends the user's own names, and their icon
   * when it is one of the six URLs, or else the avatar-1 URL.
   */
  lemma UntouchedFormKeepsProfile(u: Auth.User)
    ensures SubmitInput(InitialForm(u)).firstName == u.firstName
    ensures SubmitInput(InitialForm(u)).lastName == u.lastName
    ensures u.icon in AvatarUrls.Values ==> SubmitInput(InitialForm(u)).icon == u.icon
    ensures u.icon !in AvatarUrls.Values ==> SubmitInput(InitialForm(u)).icon == DefaultAvatarUrl
  {
  }
}
