/** Application settings: the validated fields, the secret-file rule and the
    admin-role-id list parser. */
module Config {
  import opened Wrappers
  import opened Text

  /** pydantic's `PositiveInt`. */
  type PositiveInt = x: int | x > 0 witness 1

  /** Characters for which Python's `str.isdigit()` holds but `int()` fails: the
      superscript and subscript digits and the circled digits one to nine. Python has more
      such characters (other circled and dingbat digits); those are not listed here. */
  predicate IsNonDecimalDigit(c: char) {
    c == '\U{B2}' || c == '\U{B3}' || c == '\U{B9}' || c == '\U{2070}'
    || ('\U{2074}' <= c <= '\U{2079}') || ('\U{2080}' <= c <= '\U{2089}')
    || ('\U{2460}' <= c <= '\U{2468}')
  }

  /** Python `s.isdigit()`. */
  predicate PyIsDigit(s: string) {
    |s| > 0 && forall i :: 0 <= i < |s| ==> IsDecimalDigit(s[i]) || IsNonDecimalDigit(s[i])
  }

  /** What one comma-separated piece contributes to the list. */
  datatype Piece = Skipped | Id(value: nat) | NotDecimal

  /** One piece, stripped: skipped unless all digits; `int()` fails unless all decimal. */
  function ReadPiece(piece: string): (r: Piece)
    ensures r.Id? <==> IsDecimal(Strip(piece))
  {
    var p := Strip(piece);
    if !PyIsDigit(p) then Skipped
    else if !IsDecimal(p) then NotDecimal
    else Id(DecimalValue(p))
  }

  function ReadPieces(pieces: seq<string>): (r: seq<Piece>)
    ensures |r| == |pieces| && forall i :: 0 <= i < |pieces| ==> r[i] == ReadPiece(pieces[i])
  {
    seq(|pieces|, i requires 0 <= i < |pieces| => ReadPiece(pieces[i]))
  }

  /** The list comprehension: the ids of the pieces in order; `None` when `int()` raises. */
  function Collect(ps: seq<Piece>): (r: Option<seq<nat>>)
    ensures r.Some? ==> |r.value| <= |ps|
  {
    if ps == [] then Some([])
    else
      var rest := Collect(ps[1..]);
      match ps[0]
      case Skipped => rest
      case NotDecimal => None
      case Id(n) => if rest.None? then None else Some([n] + rest.value)
  }

  /** `ADMIN_ROLES_AS_INT_LIST`: the digit-only pieces as integers, in order; `[]` for an
      empty setting or when a digit-only piece is not a decimal number. */
  function ParseAdminRoleIds(s: string): (r: seq<nat>)
    ensures s == "" ==> r == []
    ensures |r| <= |Split(s, ',')|
  {
    if s == "" then [] else Collect(ReadPieces(Split(s, ','))).GetOr([])
  }

  /** A piece that is not all digits is skipped wherever it stands. */
  lemma {:induction false} CollectSkips(xs: seq<Piece>, ys: seq<Piece>)
    ensures Collect(xs + [Skipped] + ys) == Collect(xs + ys)
  {
    if xs == [] {
      assert (xs + [Skipped] + ys)[1..] == ys == xs + ys;
    } else {
      CollectSkips(xs[1..], ys);
      assert (xs + [Skipped] + ys)[1..] == xs[1..] + [Skipped] + ys;
      assert (xs + ys)[1..] == xs[1..] + ys;
    }
  }

  /** One digit-only piece that `int()` rejects empties the whole list. */
  lemma {:induction false} CollectFailsOnNotDecimal(xs: seq<Piece>, ys: seq<Piece>)
    ensures Collect(xs + [NotDecimal] + ys).None?
  {
    if xs != [] {
      assert (xs + [NotDecimal] + ys)[1..] == xs[1..] + [NotDecimal] + ys;
      CollectFailsOnNotDecimal(xs[1..], ys);
    } else {
      assert (xs + [NotDecimal] + ys)[0] == NotDecimal;
    }
  }

  /** Pieces that are all numbers are collected in order. */
  lemma {:induction false} CollectIds(ids: seq<nat>)
    ensures Collect(seq(|ids|, i requires 0 <= i < |ids| => Id(ids[i]))) == Some(ids)
  {
    var ps := seq(|ids|, i requires 0 <= i < |ids| => Id(ids[i]));
    if ids != [] {
      assert ps[1..] == seq(|ids[1..]|, i requires 0 <= i < |ids[1..]| => Id(ids[1..][i]));
      CollectIds(ids[1..]);
      assert ids == [ids[0]] + ids[1..];
    }
  }

  /** The decimal text of each id. */
  function Render(ids: seq<nat>): (parts: seq<string>)
    ensures |parts| == |ids|
    ensures forall i :: 0 <= i < |ids| ==> parts[i] == NatToString(ids[i])
  {
    seq(|ids|, i requires 0 <= i < |ids| => NatToString(ids[i]))
  }

  /** Writing ids comma-separated and parsing them back gives the same ids. */
  lemma AdminRoleIdsRoundTrip(ids: seq<nat>)
    ensures ParseAdminRoleIds(Join(Render(ids), ",")) == ids
  {
    if ids != [] {
      var parts := Render(ids);
      SplitJoin(parts, ',');
      ReadRendered(ids);
      CollectIds(ids);
      JoinNonEmpty(parts, ",");
    }
  }

  /** The text of a number reads back as that number. */
  lemma ReadRendered(ids: seq<nat>)
    ensures ReadPieces(Render(ids)) == seq(|ids|, i requires 0 <= i < |ids| => Id(ids[i]))
  {
    var parts := Render(ids);
    forall i | 0 <= i < |ids| ensures ReadPiece(parts[i]) == Id(ids[i]) {
      StripNoSpace(parts[i]);
      NatToStringRoundTrip(ids[i]);
    }
  }

  lemma JoinNonEmpty(parts: seq<string>, sep: string)
    requires |parts| > 0 && |parts[0]| > 0
    ensures Join(parts, sep) != ""
  {
  }

  /** What `open(path)` would find. */
  datatype FileState = Absent | Unreadable | Readable(contents: string)

  /** The token after the secret-file rule: a set, existing, readable file replaces the
      environment value with its stripped contents; otherwise the environment value stays. */
  function TokenFromSources(env: Option<string>, file: Option<string>, fs: map<string, FileState>): Option<string> {
    if file.Some? && file.value != "" && file.value in fs && fs[file.value].Readable? then
      Some(Strip(fs[file.value].contents))
    else env
  }

  /** A token that came from a file carries no surrounding whitespace, and a file that
      is unset, missing or unreadable leaves the environment token in place. */
  lemma TokenFromFileIsStripped(env: Option<string>, file: Option<string>, fs: map<string, FileState>)
    ensures var r := TokenFromSources(env, file, fs);
      r != env ==> r.Some? && Strip(r.value) == r.value
    ensures (file.None? || file.value == "" || file.value !in fs || !fs[file.value].Readable?)
      ==> TokenFromSources(env, file, fs) == env
  {
    if file.Some? && file.value != "" && file.value in fs && fs[file.value].Readable? {
      StripIdempotent(fs[file.value].contents);
    }
  }

  /** Python truthiness of an optional string. */
  predicate IsSet(t: Option<string>) {
    t.Some? && t.value != ""
  }

  /** The settings object: the validated fields and the two tokens the validator rewrites. */
  class Settings {
    var discordBotToken: Option<string>
    var llmApiToken: Option<string>
    const discordBotTokenFile: Option<string>
    const llmApiTokenFile: Option<string>
    const verifiedRoleId: PositiveInt
    const unverifiedRoleId: PositiveInt
    const verificationInProgressRoleId: PositiveInt
    const adminRoleIdsStr: string
    const verificationRetries: PositiveInt
    const rebuildRoleCategoriesOnStartup: bool
    const notificationChannelId: Option<PositiveInt>
    const welcomeChannelId: Option<PositiveInt>
    const llmModelName: string
    var parsedAdminRoleIds: seq<nat>

    constructor(discordBotToken: Option<string>, discordBotTokenFile: Option<string>,
                llmApiToken: Option<string>, llmApiTokenFile: Option<string>,
                verifiedRoleId: PositiveInt, unverifiedRoleId: PositiveInt,
                verificationInProgressRoleId: PositiveInt, adminRoleIdsStr: string,
                verificationRetries: PositiveInt, rebuildRoleCategoriesOnStartup: bool,
                notificationChannelId: Option<PositiveInt>, welcomeChannelId: Option<PositiveInt>,
                llmModelName: string)
      ensures this.discordBotToken == discordBotToken && this.discordBotTokenFile == discordBotTokenFile
      ensures this.llmApiToken == llmApiToken && this.llmApiTokenFile == llmApiTokenFile
      ensures this.verifiedRoleId == verifiedRoleId && this.unverifiedRoleId == unverifiedRoleId
      ensures this.verificationInProgressRoleId == verificationInProgressRoleId
      ensures this.adminRoleIdsStr == adminRoleIdsStr && this.verificationRetries == verificationRetries
      ensures this.rebuildRoleCategoriesOnStartup == rebuildRoleCategoriesOnStartup
      ensures this.notificationChannelId == notificationChannelId && this.welcomeChannelId == welcomeChannelId
      ensures this.llmModelName == llmModelName
      ensures parsedAdminRoleIds == []
    {
      this.discordBotToken := discordBotToken;
      this.discordBotTokenFile := discordBotTokenFile;
      this.llmApiToken := llmApiToken;
      this.llmApiTokenFile := llmApiTokenFile;
      this.verifiedRoleId := verifiedRoleId;
      this.unverifiedRoleId := unverifiedRoleId;
      this.verificationInProgressRoleId := verificationInProgressRoleId;
      this.adminRoleIdsStr := adminRoleIdsStr;
      this.verificationRetries := verificationRetries;
      this.rebuildRoleCategoriesOnStartup := rebuildRoleCategoriesOnStartup;
      this.notificationChannelId := notificationChannelId;
      this.welcomeChannelId := welcomeChannelId;
      this.llmModelName := llmModelName;
      parsedAdminRoleIds := [];
    }

    /** The after-validator: apply the secret-file rule to both tokens; `ok` is false
        (validation fails) when the Discord token is still unset or empty. */
    method LoadSecretsFromFiles(fs: map<string, FileState>) returns (ok: bool)
      modifies this
      ensures discordBotToken == TokenFromSources(old(discordBotToken), discordBotTokenFile, fs)
      ensures llmApiToken == TokenFromSources(old(llmApiToken), llmApiTokenFile, fs)
      ensures parsedAdminRoleIds == old(parsedAdminRoleIds)
      ensures ok <==> IsSet(discordBotToken)
    {
      if discordBotTokenFile.Some? && discordBotTokenFile.value != "" && discordBotTokenFile.value in fs {
        var f := fs[discordBotTokenFile.value];
        if f.Readable? {
          discordBotToken := Some(Strip(f.contents));
        }
      }
      if llmApiTokenFile.Some? && llmApiTokenFile.value != "" && llmApiTokenFile.value in fs {
        var f := fs[llmApiTokenFile.value];
        if f.Readable? {
          llmApiToken := Some(Strip(f.contents));
        }
      }
      ok := IsSet(discordBotToken);
    }

    /** `settings.PARSED_ADMIN_ROLE_IDS = settings.ADMIN_ROLES_AS_INT_LIST`. */
    method ParseAdminRoles()
      modifies this
      ensures parsedAdminRoleIds == ParseAdminRoleIds(adminRoleIdsStr)
      ensures discordBotToken == old(discordBotToken) && llmApiToken == old(llmApiToken)
    {
      parsedAdminRoleIds := ParseAdminRoleIds(adminRoleIdsStr);
    }
  }
}
