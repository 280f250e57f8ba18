/**
 * The self-profile reader (internal/modules/ai/infrastructure/reader/self_profile_reader.go):
 * renders the tenant's own user record as one line of Chinese "key value" fields
 * after a fixed header, normalising the birthday on the way.
 */
module SelfProfile {
  import opened Common
  import opened GoStrings

  const Colon: char := '\U{FF1A}'
  const Comma: char := '\U{FF0C}'
  /** "我的个人档案：" (my profile:) */
  const Header: string := "\U{6211}\U{7684}\U{4E2A}\U{4EBA}\U{6863}\U{6848}\U{FF1A}"
  const NicknameKey: string := "\U{6635}\U{79F0}"
  const UuidKey: string := "UUID"
  const BirthdayKey: string := "\U{751F}\U{65E5}"
  const SignatureKey: string := "\U{4E2A}\U{6027}\U{7B7E}\U{540D}"
  const RegisteredKey: string := "\U{6CE8}\U{518C}\U{65F6}\U{95F4}"

  /** isAllDigits: a non-empty string of ASCII digits. */
  method IsAllDigits(s: string) returns (r: bool)
    ensures r <==> s != [] && AllDigits(s)
  {
    if s == [] {
      return false;
    }
    var i := 0;
    while i < |s|
      invariant 0 <= i <= |s|
      invariant forall j :: 0 <= j < i ==> IsDigit(s[j])
    {
      if s[i] < '0' || s[i] > '9' {
        return false;
      }
      i := i + 1;
    }
    return true;
  }

  /** The three digit groups yyyy, mm and dd that formatBirthday checks one by one. */
  predicate DateDigits(s: string)
  {
    |s| == 8 && AllDigits(s[0..4]) && AllDigits(s[4..6]) && AllDigits(s[6..8])
  }

  /** The birthday as yyyy-mm-dd when it is eight digits, otherwise as stored (trimmed). */
  function FormatBirthday(s0: string): (r: string)
    ensures IsBlank(s0) <==> r == []
    ensures r != [] ==> !IsSpace(r[0]) && !IsSpace(r[|r| - 1])
  {
    var s := TrimSpace(s0);
    if s == [] then []
    else if Contains(s, "-") && Utf8Len(s) >= 8 then s
    // The source's eight-byte test with every byte a digit holds exactly for eight ASCII
    // digits, which is what DateDigits asks of the characters.
    else if DateDigits(s) then s[0..4] + "-" + s[4..6] + "-" + s[6..8]
    // time.Parse with layout "20060102" accepts exactly the strings of eight digits, which
    // the previous branch has already taken, so its fallback never fires.
    else s
  }

  /** Checking the three groups is checking all eight characters. */
  lemma DateDigitsIff(s: string)
    requires |s| == 8
    ensures DateDigits(s) <==> AllDigits(s)
  {
    if DateDigits(s) {
      forall i | 0 <= i < 8 ensures IsDigit(s[i]) {
        if i < 4 {
          assert s[0..4][i] == s[i];
        } else if i < 6 {
          assert s[4..6][i - 4] == s[i];
        } else {
          assert s[6..8][i - 6] == s[i];
        }
      }
    }
  }

  /** A string of digits holds no dash. */
  lemma DigitsHaveNoDash(s: string)
    requires AllDigits(s)
    ensures !Contains(s, "-")
  {
    ContainsIff(s, "-");
    forall j ensures !OccursAt(s, "-", j) {
      if 0 <= j && j + 1 <= |s| {
        assert s[j..j + 1][0] == s[j];
      }
    }
  }

  /** A dashed birthday of eight or more UTF-8 bytes is kept as it is. */
  lemma BirthdayDashedKept(s: string)
    requires TrimSpace(s) == s && Contains(s, "-") && Utf8Len(s) >= 8
    ensures FormatBirthday(s) == s
  {
  }

  /** Eight digits become yyyy-mm-dd; dropping the two dashes gives the digits back. */
  lemma BirthdayEightDigits(s: string)
    requires |s| == 8 && AllDigits(s)
    ensures var r := FormatBirthday(s);
      |r| == 10 && r[4] == '-' && r[7] == '-' && r[..4] + r[5..7] + r[8..] == s
  {
    assert !IsSpace(s[0]) && !IsSpace(s[7]);
    TrimSpaceNoop(s);
    DigitsHaveNoDash(s);
    DateDigitsIff(s);
    var r := s[0..4] + "-" + s[4..6] + "-" + s[6..8];
    assert FormatBirthday(s) == r;
    assert |r| == 10;
    assert r[..4] == s[0..4];
    assert r[5..7] == s[4..6];
    assert r[8..] == s[6..8];
    assert s[0..4] + s[4..6] + s[6..8] == s;
  }

  /** Anything else that is not blank is returned trimmed and otherwise unchanged. */
  lemma BirthdayOtherwiseTrimmed(s0: string)
    requires var s := TrimSpace(s0);
      s != [] && !(Contains(s, "-") && Utf8Len(s) >= 8) && !(|s| == 8 && AllDigits(s))
    ensures FormatBirthday(s0) == TrimSpace(s0)
  {
    var s := TrimSpace(s0);
    if |s| == 8 {
      DateDigitsIff(s);
    }
  }

  /** Formatting a formatted birthday changes nothing. */
  lemma BirthdayIdempotent(s0: string)
    ensures FormatBirthday(FormatBirthday(s0)) == FormatBirthday(s0)
  {
    var r := FormatBirthday(s0);
    if r != [] {
      TrimSpaceNoop(r);
      var s := TrimSpace(s0);
      if !(Contains(s, "-") && Utf8Len(s) >= 8) && DateDigits(s) {
        assert r[4..5] == "-";
        ContainsIff(r, "-");
        assert OccursAt(r, "-", 4);
      } else {
        assert r == s;
      }
    }
  }

  /** A field is written when its key and its value are both non-blank. */
  predicate Writes(k: string, v: string) { !IsBlank(k) && !IsBlank(v) }

  /** Appends "key value" to the text, after "，" unless the text is empty or ends with "：". */
  function AppendField(b: string, k: string, v: string): string
  {
    var lead := if |b| > 0 && !HasSuffix(b, [Colon]) then b + [Comma] else b;
    lead + k + " " + v
  }

  /** writeCNField: the builder's text after writing one field; blank keys or values leave it as it was. */
  function WriteCNField(b: string, k: string, v: string): (r: string)
    ensures !Writes(k, v) ==> r == b
    ensures Writes(k, v) ==> |r| > |b| && r[..|b|] == b && !IsSpace(r[|r| - 1])
  {
    var k, v := TrimSpace(k), TrimSpace(v);
    if k == [] || v == [] then b
    else AppendField(b, k, v)
  }

  /** A written field is preceded by "，" exactly when the text is non-empty and does not end with "：". */
  lemma AppendFieldSeparator(b: string, k: string, v: string)
    ensures b != [] && !HasSuffix(b, [Colon]) ==> AppendField(b, k, v)[|b|..] == [Comma] + k + " " + v
    ensures b == [] || HasSuffix(b, [Colon]) ==> AppendField(b, k, v)[|b|..] == k + " " + v
  {
  }

  /** What writeCNField appends: the separator rule, then the trimmed key, a space and the trimmed value. */
  lemma WriteCNFieldSeparator(b: string, k: string, v: string)
    requires Writes(k, v)
    ensures b != [] && !HasSuffix(b, [Colon]) ==> WriteCNField(b, k, v)[|b|..] == [Comma] + TrimSpace(k) + " " + TrimSpace(v)
    ensures b == [] || HasSuffix(b, [Colon]) ==> WriteCNField(b, k, v)[|b|..] == TrimSpace(k) + " " + TrimSpace(v)
  {
    AppendFieldSeparator(b, TrimSpace(k), TrimSpace(v));
  }

  /** The fields of one user record that the profile shows. */
  datatype UserInfo = UserInfo(nickname: string, uuid: string, birthday: string, signature: string,
                               createdAt: Option<string>)  // the creation date as yyyy-mm-dd; None for the zero time

  /** The builder's text after the header and the fields, in the order they are written. */
  function ProfileText(u: UserInfo): string
  {
    FieldsText(TrimSpace(u.nickname), TrimSpace(u.uuid), FormatBirthday(TrimSpace(u.birthday)),
               TrimSpace(u.signature), u.createdAt)
  }

  /** The header followed by the writeCNField calls, given the values to write. */
  function FieldsText(nickname: string, uuid: string, birthday: string, signature: string,
                      createdAt: Option<string>): string
  {
    var b := WriteCNField(Header, NicknameKey, nickname);
    var b := WriteCNField(b, UuidKey, uuid);
    var b := WriteCNField(b, BirthdayKey, birthday);
    var b := WriteCNField(b, SignatureKey, signature);
    if createdAt.Some? then WriteCNField(b, RegisteredKey, createdAt.value) else b
  }

  /** The rendered profile: the trimmed text, or "" when it is only the header. */
  function ProfileOf(u: UserInfo): string
  {
    var out := TrimSpace(ProfileText(u));
    if out == Header then [] else out
  }

  /** ReadProfile: errors for a missing repository, a blank tenant or a failed lookup; "" for no user. */
  function ReadProfile(hasRepo: bool, tenantUserId: string, lookup: string -> Result<Option<UserInfo>>): (r: Result<string>)
    ensures !hasRepo ==> r == Err(PlainErr("user repo is nil"))
    ensures hasRepo && IsBlank(tenantUserId) ==> r == Err(PlainErr("missing tenant_user_id"))
    ensures hasRepo && !IsBlank(tenantUserId) ==>
      match lookup(TrimSpace(tenantUserId))
      case Err(e) => r == Err(e)
      case Ok(None) => r == Ok([])
      case Ok(Some(u)) => r == Ok(ProfileOf(u))
  {
    if !hasRepo then Err(PlainErr("user repo is nil"))
    else
      var uid := TrimSpace(tenantUserId);
      if uid == [] then Err(PlainErr("missing tenant_user_id"))
      else
        match lookup(uid)
        case Err(e) => Err(e)
        case Ok(None) => Ok([])
        case Ok(Some(u)) => Ok(ProfileOf(u))
  }

  /** The header and the keys start on a non-space, and the header ends on one. */
  lemma KeysSolid()
    ensures Solid(Header)
    ensures NicknameKey != [] && !IsSpace(NicknameKey[0]) && UuidKey != [] && !IsSpace(UuidKey[0])
    ensures BirthdayKey != [] && !IsSpace(BirthdayKey[0]) && SignatureKey != [] && !IsSpace(SignatureKey[0])
    ensures RegisteredKey != [] && !IsSpace(RegisteredKey[0])
  {
  }

  /** A text that starts and ends on a non-space. */
  predicate Solid(b: string) { b != [] && !IsSpace(b[0]) && !IsSpace(b[|b| - 1]) }

  lemma KeyNotBlank(k: string)
    requires k != [] && !IsSpace(k[0])
    ensures !IsBlank(k)
  {
    TrimSpaceEmpty(k);
  }

  /**
   * One writeCNField call under a key that is not blank keeps a solid text solid, keeps it
   * as a prefix, and grows it exactly when the value is not blank.
   */
  lemma WriteStep(b: string, k: string, v: string)
    requires Solid(b) && k != [] && !IsSpace(k[0])
    ensures var r := WriteCNField(b, k, v);
      Solid(r) && b <= r && (|r| == |b| <==> IsBlank(v))
  {
    KeyNotBlank(k);
    var r := WriteCNField(b, k, v);
    assert r[0] == r[..|b|][0];
  }

  lemma TrimmedBlankIff(s: string)
    ensures IsBlank(TrimSpace(s)) <==> IsBlank(s)
  {
    TrimSpaceIdempotent(s);
  }

  /** The formatted birthday is blank exactly when the stored one is. */
  lemma BirthdayBlankIff(s: string)
    ensures IsBlank(FormatBirthday(TrimSpace(s))) <==> IsBlank(s)
  {
    TrimmedBlankIff(s);
    var f := FormatBirthday(TrimSpace(s));
    if f != [] {
      TrimSpaceNoop(f);
    }
  }

  /** Every field of the user is blank. */
  predicate AllFieldsBlank(u: UserInfo)
  {
    IsBlank(u.nickname) && IsBlank(u.uuid) && IsBlank(u.birthday) && IsBlank(u.signature)
    && (u.createdAt.None? || IsBlank(u.createdAt.value))
  }

  /** The text is solid, starts with the header, and is the header alone exactly when every value is blank. */
  lemma FieldsTextShape(nickname: string, uuid: string, birthday: string, signature: string,
                        createdAt: Option<string>)
    ensures var t := FieldsText(nickname, uuid, birthday, signature, createdAt);
      Solid(t) && Header <= t
      && (t == Header <==> IsBlank(nickname) && IsBlank(uuid) && IsBlank(birthday) && IsBlank(signature)
                           && (createdAt.None? || IsBlank(createdAt.value)))
  {
    KeysSolid();
    var b1 := WriteCNField(Header, NicknameKey, nickname);
    WriteStep(Header, NicknameKey, nickname);
    var b2 := WriteCNField(b1, UuidKey, uuid);
    WriteStep(b1, UuidKey, uuid);
    var b3 := WriteCNField(b2, BirthdayKey, birthday);
    WriteStep(b2, BirthdayKey, birthday);
    var b4 := WriteCNField(b3, SignatureKey, signature);
    WriteStep(b3, SignatureKey, signature);
    var t := FieldsText(nickname, uuid, birthday, signature, createdAt);
    if createdAt.Some? {
      WriteStep(b4, RegisteredKey, createdAt.value);
    }
    assert |t| == |Header| ==> t == Header;
  }

  /** The text is solid, starts with the header, and is the header alone exactly when every field is blank. */
  lemma ProfileTextShape(u: UserInfo)
    ensures var t := ProfileText(u);
      Solid(t) && Header <= t && (t == Header <==> AllFieldsBlank(u))
  {
    FieldsTextShape(TrimSpace(u.nickname), TrimSpace(u.uuid), FormatBirthday(TrimSpace(u.birthday)),
                    TrimSpace(u.signature), u.createdAt);
    TrimmedBlankIff(u.nickname);
    TrimmedBlankIff(u.uuid);
    BirthdayBlankIff(u.birthday);
    TrimmedBlankIff(u.signature);
  }

  /**
   * A profile is empty exactly when every field of the user is blank; otherwise it is the
   * header followed by the written fields.
   */
  lemma ProfileEmptyIff(u: UserInfo)
    ensures ProfileOf(u) == [] <==> AllFieldsBlank(u)
    ensures ProfileOf(u) != [] ==> ProfileOf(u) == ProfileText(u) && |ProfileOf(u)| > |Header| && Header <= ProfileOf(u)
  {
    ProfileTextShape(u);
    TrimSpaceNoop(ProfileText(u));
  }
}
