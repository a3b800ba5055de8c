/**
 * The string logic of a chat user: avatar URLs, the default avatar chosen
 * from the discriminator, the mention tag, the `name#0001` display form,
 * and the table of single-bit user flags.
 */
module Users {
  import opened Wrappers
  import opened PyText

  /** The five stock avatars, with values 0 to 4. */
  datatype DefaultAvatar = Blurple | Grey | Green | Orange | Red

  /** The number of stock avatars (`len(DefaultAvatars.attrs)`). */
  const DefaultAvatarCount: nat := 5

  function AvatarValue(a: DefaultAvatar): (v: nat)
    ensures v < DefaultAvatarCount
  {
    match a
    case Blurple => 0
    case Grey => 1
    case Green => 2
    case Orange => 3
    case Red => 4
  }

  /** Enum lookup by value: `DefaultAvatars[v]`. */
  function AvatarOfValue(v: nat): (a: DefaultAvatar)
    requires v < DefaultAvatarCount
    ensures AvatarValue(a) == v
  {
    if v == 0 then Blurple
    else if v == 1 then Grey
    else if v == 2 then Green
    else if v == 3 then Orange
    else Red
  }

  /**
   * The fields of a user that the string logic reads. `avatar` is the
   * avatar hash, `None` when the user has none; `discriminator` is text.
   */
  datatype User = User(id: nat, username: string, avatar: Option<string>, discriminator: string)

  /** `int(discriminator)` raised ValueError on this text. */
  datatype UserError = ValueError(text: string)

  /** Python truthiness of `self.avatar`: neither None nor empty. */
  predicate HasAvatar(u: User) {
    u.avatar.Some? && u.avatar.value != ""
  }

  /**
   * `int(discriminator) % 5`, as an enum member. Python's `%` by a positive
   * divisor is never negative, like Dafny's, so a negative discriminator
   * also lands in 0..4.
   */
  function DefaultAvatarOf(u: User): (r: Result<DefaultAvatar, UserError>)
    ensures r.Ok? <==> ParseInt(u.discriminator).Some?
    ensures r.Ok? ==> AvatarValue(r.value) == ParseInt(u.discriminator).value % DefaultAvatarCount
    ensures r.Err? ==> r.error == ValueError(u.discriminator)
  {
    match ParseInt(u.discriminator)
    case None => Err(ValueError(u.discriminator))
    case Some(n) => Ok(AvatarOfValue(n % DefaultAvatarCount))
  }

  const CdnRoot := "https://cdn.discordapp.com/"

  function DefaultAvatarUrl(a: DefaultAvatar): string {
    CdnRoot + "embed/avatars/" + IntToString(AvatarValue(a)) + ".png"
  }

  function AvatarFileUrl(id: nat, avatar: string, ext: string, size: int): string {
    CdnRoot + "avatars/" + IntToString(id) + "/" + avatar + "." + ext + "?size=" + IntToString(size)
  }

  /**
   * `get_avatar_url(fmt, size)`: the stock avatar when the user has no
   * avatar; otherwise the user's avatar file, with extension `fmt` when one
   * is given, else `gif` for an animated (`a_`) hash and `webp` for the rest.
   */
  function GetAvatarUrl(u: User, fmt: Option<string>, size: int): (r: Result<string, UserError>)
    ensures r.Err? <==> !HasAvatar(u) && ParseInt(u.discriminator).None?
  {
    if !HasAvatar(u) then
      match DefaultAvatarOf(u)
      case Err(e) => Err(e)
      case Ok(a) => Ok(DefaultAvatarUrl(a))
    else if fmt.Some? then
      Ok(AvatarFileUrl(u.id, u.avatar.value, fmt.value, size))
    else if StartsWith(u.avatar.value, "a_") then
      Ok(AvatarFileUrl(u.id, u.avatar.value, "gif", size))
    else
      Ok(AvatarFileUrl(u.id, u.avatar.value, "webp", size))
  }

  /** The `avatar_url` property: the URL with the default arguments. */
  function AvatarUrl(u: User): (r: Result<string, UserError>)
    ensures HasAvatar(u) && StartsWith(u.avatar.value, "a_") ==>
              r == Ok(AvatarFileUrl(u.id, u.avatar.value, "gif", 1024))
    ensures HasAvatar(u) && !StartsWith(u.avatar.value, "a_") ==>
              r == Ok(AvatarFileUrl(u.id, u.avatar.value, "webp", 1024))
    ensures !HasAvatar(u) ==> forall fmt, size :: r == GetAvatarUrl(u, fmt, size)
  {
    GetAvatarUrl(u, None, 1024)
  }

  /** `mention`: the tag `<@id>` that pings the user. */
  function Mention(u: User): (m: string)
    ensures |m| >= 4 && m[..2] == "<@" && m[|m| - 1] == '>'
  {
    "<@" + IntToString(u.id) + ">"
  }

  /** `__str__`: the user name, `#`, and the discriminator padded to four digits. */
  function Str(u: User): (s: string)
    ensures |s| >= |u.username| + 5
  {
    u.username + "#" + ZFill(u.discriminator, 4)
  }

  /** Without an avatar the URL names the stock avatar `int(discriminator) % 5`; `fmt` and `size` play no part. */
  lemma NoAvatarUrl(u: User, fmt: Option<string>, size: int)
    requires !HasAvatar(u) && ParseInt(u.discriminator).Some?
    ensures var n := ParseInt(u.discriminator).value % DefaultAvatarCount;
            GetAvatarUrl(u, fmt, size) == Ok(CdnRoot + "embed/avatars/" + [DigitChar(n)] + ".png")
    ensures GetAvatarUrl(u, fmt, size) == GetAvatarUrl(u, None, 1024)
  {
  }

  /** An explicit `fmt` is the extension, animated hash or not. */
  lemma ExplicitFormatUrl(u: User, fmt: string, size: int)
    requires HasAvatar(u)
    ensures GetAvatarUrl(u, Some(fmt), size) == Ok(AvatarFileUrl(u.id, u.avatar.value, fmt, size))
  {
  }

  lemma GifAndWebpDiffer(id: nat, avatar: string, size: int)
    ensures AvatarFileUrl(id, avatar, "gif", size) != AvatarFileUrl(id, avatar, "webp", size)
  {
    assert |AvatarFileUrl(id, avatar, "gif", size)| + 1 == |AvatarFileUrl(id, avatar, "webp", size)|;
  }

  /** Without `fmt`, the URL is the `gif` one exactly when the hash starts with `a_`, and the `webp` one exactly when it does not. */
  lemma AnimatedIffGif(u: User, size: int)
    requires HasAvatar(u)
    ensures GetAvatarUrl(u, None, size) == Ok(AvatarFileUrl(u.id, u.avatar.value, "gif", size))
            <==> StartsWith(u.avatar.value, "a_")
    ensures GetAvatarUrl(u, None, size) == Ok(AvatarFileUrl(u.id, u.avatar.value, "webp", size))
            <==> !StartsWith(u.avatar.value, "a_")
  {
    GifAndWebpDiffer(u.id, u.avatar.value, size);
  }

  /** The `size` query parameter ends every avatar-file URL and reads back as `size`. */
  lemma AvatarFileUrlSize(id: nat, avatar: string, ext: string, size: int)
    ensures var url := AvatarFileUrl(id, avatar, ext, size);
            var digits := IntToString(size);
            |digits| + 6 <= |url| &&
            url[|url| - |digits| - 6..|url| - |digits|] == "?size=" &&
            ParseInt(url[|url| - |digits|..]) == Some(size)
  {
    var url := AvatarFileUrl(id, avatar, ext, size);
    var digits := IntToString(size);
    var head := CdnRoot + "avatars/" + IntToString(id) + "/" + avatar + "." + ext;
    assert url == head + "?size=" + digits;
    assert url[|url| - |digits|..] == digits;
    assert url[|url| - |digits| - 6..|url| - |digits|] == "?size=";
    IntToStringRoundTrip(size);
  }

  /** The mention wraps the decimal id, which reads back as the id. */
  lemma MentionRecoversId(u: User)
    ensures var m := Mention(u); ParseInt(m[2..|m| - 1]) == Some(u.id)
  {
    var m := Mention(u);
    assert m[2..|m| - 1] == IntToString(u.id);
    IntToStringRoundTrip(u.id);
  }

  /**
   * The display form is the user name, `#`, then the discriminator padded
   * with zeros to four characters and never cut short; the padded text
   * denotes the same number, so it picks the same stock avatar.
   */
  lemma StrShowsDiscriminator(u: User)
    ensures var s := Str(u); var tail := s[|u.username| + 1..];
            && s[..|u.username|] == u.username
            && s[|u.username|] == '#'
            && |tail| == (if |u.discriminator| >= 4 then |u.discriminator| else 4)
            && (|u.discriminator| >= 4 ==> tail == u.discriminator)
            && (|u.discriminator| < 4 && !(|u.discriminator| > 0 && IsSign(u.discriminator[0])) ==>
                  tail == Zeros(4 - |u.discriminator|) + u.discriminator)
            && (|u.discriminator| < 4 && |u.discriminator| > 0 && IsSign(u.discriminator[0]) ==>
                  tail == [u.discriminator[0]] + Zeros(4 - |u.discriminator|) + u.discriminator[1..])
            && (ParseInt(u.discriminator).Some? ==>
                  ParseInt(tail) == ParseInt(u.discriminator) &&
                  DefaultAvatarOf(u.(discriminator := tail)) == DefaultAvatarOf(u))
  {
    var s := Str(u);
    assert s[|u.username| + 1..] == ZFill(u.discriminator, 4);
    assert s[..|u.username|] == u.username;
    if ParseInt(u.discriminator).Some? {
      ZFillKeepsValue(u.discriminator, 4);
    }
  }

  /** A discriminator written as a zero-padded decimal `n` picks stock avatar `n % 5`. */
  lemma DefaultAvatarOfPaddedNumber(u: User, n: nat)
    requires u.discriminator == ZFill(NatToString(n), 4)
    ensures DefaultAvatarOf(u).Ok? && AvatarValue(DefaultAvatarOf(u).value) == n % DefaultAvatarCount
  {
    IntToStringRoundTrip(n);
    assert IntToString(n) == NatToString(n);
    ZFillKeepsValue(NatToString(n), 4);
  }

  /** The user flags, one bit each. */
  datatype UserFlag =
    | Staff | Partner | HsEvents | BugHunterLevel1 | HsBravery | HsBrilliance
    | HsBalance | EarlySupporter | TeamUser | System | BugHunterLevel2
    | VerifiedBot | VerifiedDeveloper

  /** The bit position of each flag (`1 << Shift(f)`). */
  function Shift(f: UserFlag): nat {
    match f
    case Staff => 0
    case Partner => 1
    case HsEvents => 2
    case BugHunterLevel1 => 3
    case HsBravery => 6
    case HsBrilliance => 7
    case HsBalance => 8
    case EarlySupporter => 9
    case TeamUser => 10
    case System => 12
    case BugHunterLevel2 => 14
    case VerifiedBot => 16
    case VerifiedDeveloper => 17
  }

  /** The flag at a bit position, if any: the inverse of `Shift`. */
  function FlagAt(n: nat): (r: Option<UserFlag>)
    ensures r.Some? ==> Shift(r.value) == n
  {
    match n
    case 0 => Some(Staff)
    case 1 => Some(Partner)
    case 2 => Some(HsEvents)
    case 3 => Some(BugHunterLevel1)
    case 6 => Some(HsBravery)
    case 7 => Some(HsBrilliance)
    case 8 => Some(HsBalance)
    case 9 => Some(EarlySupporter)
    case 10 => Some(TeamUser)
    case 12 => Some(System)
    case 14 => Some(BugHunterLevel2)
    case 16 => Some(VerifiedBot)
    case 17 => Some(VerifiedDeveloper)
    case _ => None
  }

  /** Every flag has its own bit position. */
  lemma ShiftInverse(f: UserFlag)
    ensures FlagAt(Shift(f)) == Some(f)
  {
  }

  function Pow2(n: nat): (p: nat)
    ensures p >= 1
  {
    if n == 0 then 1 else 2 * Pow2(n - 1)
  }

  /** Bit `k` of `v`. */
  function Bit(v: nat, k: nat): (b: nat)
    ensures b <= 1
  {
    if k == 0 then v % 2 else Bit(v / 2, k - 1)
  }

  /** The integer value of a flag. */
  function FlagValue(f: UserFlag): nat {
    Pow2(Shift(f))
  }

  lemma {:induction false} ZeroHasNoBits(k: nat)
    ensures Bit(0, k) == 0
  {
    if k > 0 {
      ZeroHasNoBits(k - 1);
    }
  }

  lemma {:induction false} Pow2HasOneBit(n: nat, k: nat)
    ensures Bit(Pow2(n), k) == if k == n then 1 else 0
  {
    if n == 0 {
      if k > 0 {
        ZeroHasNoBits(k - 1);
      }
    } else if k > 0 {
      assert Pow2(n) / 2 == Pow2(n - 1);
      Pow2HasOneBit(n - 1, k - 1);
    }
  }

  /** Every flag sets exactly one bit, at its own position. */
  lemma FlagIsSingleBit(f: UserFlag, k: nat)
    ensures Bit(FlagValue(f), k) == if k == Shift(f) then 1 else 0
  {
    Pow2HasOneBit(Shift(f), k);
  }

  /** Distinct flags have distinct, non-overlapping bits. */
  lemma FlagsDisjoint(f: UserFlag, g: UserFlag)
    requires f != g
    ensures Bit(FlagValue(f), Shift(g)) == 0 && Bit(FlagValue(g), Shift(f)) == 0
    ensures FlagValue(f) != FlagValue(g)
  {
    ShiftInverse(f);
    ShiftInverse(g);
    assert Shift(f) != Shift(g);
    FlagIsSingleBit(f, Shift(g));
    FlagIsSingleBit(g, Shift(f));
    FlagIsSingleBit(f, Shift(f));
  }
}
