/** The identity card: which colour theme it wears, how the user id and name are
    shown, the share link, and the size check on an uploaded avatar. */
module IdentityCard {
  import opened Types
  import opened Text

  datatype ThemeStyle = ThemeStyle(
    bg: string, border: string, accent: string, glow: string,
    sashColor: string, sashText: string, ringColor: string, hex: string)

  /** The seven card themes, by key. */
  const Themes: map<string, ThemeStyle> := map[
    "cyan" := ThemeStyle("bg-slate-900", "border-primary-500/30", "text-primary-400",
      "shadow-[0_0_40px_rgba(99,102,241,0.3)]", "bg-primary-500", "text-white", "border-primary-400", "#6366f1"),
    "emerald" := ThemeStyle("bg-slate-900", "border-emerald-500/30", "text-emerald-400",
      "shadow-[0_0_40px_rgba(52,211,153,0.3)]", "bg-emerald-500", "text-black", "border-emerald-400", "#34d399"),
    "violet" := ThemeStyle("bg-slate-900", "border-violet-500/30", "text-violet-400",
      "shadow-[0_0_40px_rgba(167,139,250,0.3)]", "bg-violet-500", "text-black", "border-violet-400", "#a78bfa"),
    "rose" := ThemeStyle("bg-slate-900", "border-rose-500/30", "text-rose-400",
      "shadow-[0_0_40px_rgba(251,113,133,0.3)]", "bg-rose-500", "text-black", "border-rose-400", "#fb7185"),
    "amber" := ThemeStyle("bg-slate-900", "border-amber-500/30", "text-amber-400",
      "shadow-[0_0_40px_rgba(251,191,36,0.3)]", "bg-amber-500", "text-black", "border-amber-400", "#fbbf24"),
    "founder" := ThemeStyle("bg-slate-950", "border-yellow-500/50", "text-yellow-400",
      "shadow-[0_0_40px_rgba(234,179,8,0.3)]", "bg-yellow-500", "text-black", "border-yellow-400", "#eab308"),
    "ceo" := ThemeStyle("bg-slate-950", "border-red-500/50", "text-red-400",
      "shadow-[0_0_40px_rgba(239,68,68,0.3)]", "bg-red-500", "text-black", "border-red-400", "#ef4444")
  ]

  /** `activeThemeKey`: a team card is 'founder' on a Pro account and 'ceo' otherwise;
      any other card takes the theme prop, else the user's own theme, else 'cyan'. */
  function ActiveThemeKey(u: UserProfile, isTeamMember: bool, theme: Option<string>): (k: string)
    ensures isTeamMember ==> k == (if u.settings.accountType == ProAccount then "founder" else "ceo")
    ensures !isTeamMember && theme.Some? && theme.value != "" ==> k == theme.value
    ensures !isTeamMember && (theme.None? || theme.value == "") ==> k == (if u.idTheme != "" then u.idTheme else "cyan")
    ensures k != ""
  {
    if isTeamMember then (if u.settings.accountType == ProAccount then "founder" else "ceo")
    else if theme.Some? && theme.value != "" then theme.value
    else if u.idTheme != "" then u.idTheme
    else "cyan"
  }

  /** `THEMES[key] || THEMES['cyan']`. */
  function StyleFor(key: string): (s: ThemeStyle)
    ensures key in Themes ==> s == Themes[key]
    ensures key !in Themes ==> s == Themes["cyan"]
  {
    if key in Themes then Themes[key] else Themes["cyan"]
  }

  /** Every card wears one of the seven themes, and a team card wears gold or red. */
  lemma CardStyleIsATheme(u: UserProfile, isTeamMember: bool, theme: Option<string>)
    ensures StyleFor(ActiveThemeKey(u, isTeamMember, theme)) in Themes.Values
    ensures isTeamMember ==> StyleFor(ActiveThemeKey(u, isTeamMember, theme)).hex in {"#eab308", "#ef4444"}
  {
    var k := ActiveThemeKey(u, isTeamMember, theme);
    if k in Themes {
      assert Themes[k] in Themes.Values;
    } else {
      assert "cyan" in Themes;
      assert Themes["cyan"] in Themes.Values;
    }
  }

  /** A user whose stored theme is not a known key gets the cyan card. */
  lemma UnknownThemeIsCyan(u: UserProfile)
    requires u.idTheme !in Themes
    ensures StyleFor(ActiveThemeKey(u, false, None)).hex == "#6366f1"
  {
  }

  /** The id on the card: an id longer than 12 characters shows its first 8, '...' and
      its last 4; a shorter one shows whole. */
  function DisplayId(id: string): (d: string)
    ensures |id| <= 12 ==> d == id
    ensures |id| > 12 ==> |d| == 15 && d[..8] == id[..8] && d[8..11] == "..." && d[11..] == id[|id| - 4..]
    ensures |d| <= 15
  {
    if |id| > 12 then id[..8] + "..." + id[|id| - 4..] else id
  }

  /** Shortening a shown id again changes nothing. */
  lemma DisplayIdIdempotent(id: string)
    ensures DisplayId(DisplayId(id)) == DisplayId(id)
  {
    if |id| > 12 {
      var d := DisplayId(id);
      assert d[|d| - 4..] == d[11..];
      assert d == d[..8] + "..." + d[11..];
    }
  }

  /** Two long ids with the same first 8 and last 4 characters show alike. */
  lemma DisplayIdKeepsEnds(a: string, b: string)
    requires |a| > 12 && |b| > 12 && a[..8] == b[..8] && a[|a| - 4..] == b[|b| - 4..]
    ensures DisplayId(a) == DisplayId(b)
  {
  }

  /** The name on the card, `username.toUpperCase()`. */
  function DisplayName(u: UserProfile): (n: string)
    ensures |n| == |u.username|
    ensures forall i :: 0 <= i < |n| ==> !IsLowerAscii(n[i])
  {
    Upper(u.username)
  }

  /** The class `\s` of JavaScript regular expressions. */
  predicate IsJsWhitespace(c: char)
  {
    c == ' ' || c == '\t' || c == '\n' || c == '\r' || c == '\U{000B}' || c == '\U{000C}'
    || c == '\U{00A0}' || c == '\U{1680}' || ('\U{2000}' <= c <= '\U{200A}')
    || c == '\U{2028}' || c == '\U{2029}' || c == '\U{202F}' || c == '\U{205F}'
    || c == '\U{3000}' || c == '\U{FEFF}'
  }

  predicate NoWhitespace(s: string)
  {
    forall i :: 0 <= i < |s| ==> !IsJsWhitespace(s[i])
  }

  /** `s.replace(/\s+/g, '')`: the string with its whitespace removed. */
  function StripWhitespace(s: string): (r: string)
    ensures |r| <= |s|
    ensures NoWhitespace(r)
    ensures NoWhitespace(s) ==> r == s
  {
    if s == [] then []
    else (if IsJsWhitespace(s[0]) then [] else [s[0]]) + StripWhitespace(s[1..])
  }

  /** Stripping keeps the other characters in order: it works part by part. */
  lemma {:induction false} StripWhitespaceAppend(a: string, b: string)
    ensures StripWhitespace(a + b) == StripWhitespace(a) + StripWhitespace(b)
  {
    if a == [] {
      assert a + b == b;
    } else {
      assert (a + b)[0] == a[0];
      assert (a + b)[1..] == a[1..] + b;
      StripWhitespaceAppend(a[1..], b);
    }
  }

  /** The share-link slug: whitespace removed, then lower-cased. */
  function Slug(username: string): (s: string)
    ensures NoWhitespace(s)
    ensures forall i :: 0 <= i < |s| ==> !IsUpperAscii(s[i])
    ensures |s| <= |username|
  {
    Lower(StripWhitespace(username))
  }

  const ShareUrlPrefix := "https://tradevision.pro/u/"

  /** The link copied by the share dialog. */
  function ShareUrl(u: UserProfile): (url: string)
    ensures |ShareUrlPrefix| <= |url| <= |ShareUrlPrefix| + |u.username|
    ensures url[..|ShareUrlPrefix|] == ShareUrlPrefix
    ensures NoWhitespace(url[|ShareUrlPrefix|..])
  {
    ShareUrlPrefix + Slug(u.username)
  }

  /** A slug is its own slug, so the link of a user named by a slug is that slug's link. */
  lemma SlugIdempotent(username: string)
    ensures Slug(Slug(username)) == Slug(username)
  {
    LowerIdempotent(StripWhitespace(username));
  }

  /** A space typed anywhere in a username does not change its link. */
  lemma SlugIgnoresSpace(a: string, b: string)
    ensures Slug(a + " " + b) == Slug(a + b)
  {
    assert StripWhitespace(" ") == [] by {
      assert " "[1..] == [];
    }
    StripWhitespaceAppend(a + " ", b);
    StripWhitespaceAppend(a, " ");
    StripWhitespaceAppend(a, b);
    assert StripWhitespace(a + " ") == StripWhitespace(a);
    assert StripWhitespace(a + " " + b) == StripWhitespace(a + b);
  }

  /** The largest avatar accepted, 2 MiB. */
  const MaxAvatarBytes: int := 2 * 1024 * 1024

  const AvatarTooLargeMessage := "File too large. Please upload an image under 2MB."

  datatype AvatarAction = IgnoreFile | RejectTooLarge | Upload

  /** `handleFileChange`: nothing happens without a file or an upload callback; a file
      over 2 MiB is refused; any other file is read and handed to the callback. */
  function AvatarCheck(fileSize: Option<int>, hasCallback: bool): (a: AvatarAction)
    ensures a == Upload <==> fileSize.Some? && hasCallback && fileSize.value <= MaxAvatarBytes
    ensures a == RejectTooLarge <==> fileSize.Some? && hasCallback && fileSize.value > MaxAvatarBytes
  {
    if fileSize.Some? && hasCallback then
      if fileSize.value > MaxAvatarBytes then RejectTooLarge else Upload
    else IgnoreFile
  }

  /** Exactly 2 MiB is accepted and one byte more is not. */
  lemma AvatarLimitBoundary()
    ensures AvatarCheck(Some(2097152), true) == Upload
    ensures AvatarCheck(Some(2097153), true) == RejectTooLarge
  {
  }
}
