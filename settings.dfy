/** The settings page (web/src/pages/Settings.tsx): the settings record, its keyed update, and
    the initials shown in the avatar, `settings.name.split(' ').map(n => n[0]).join('')`. */
module Settings {
  import opened Seqs

  datatype SettingValue = Text(text: string) | Flag(on: bool)

  /** The settings object, keyed by field name. */
  type Record = map<string, SettingValue>

  const InitialSettings: Record := map[
    "name" := Text("John Doe"),
    "email" := Text("john@example.com"),
    "notifications" := Flag(true),
    "soundEnabled" := Flag(true),
    "darkMode" := Flag(false),
    "language" := Text("en"),
    "autoSave" := Flag(true)]

  /** `{ ...prev, [key]: value }`. */
  function WithSetting(settings: Record, key: string, value: SettingValue): (r: Record)
    ensures key in r && r[key] == value
    ensures r.Keys == settings.Keys + {key}
    ensures forall k :: k in settings && k != key ==> r[k] == settings[k]
  {
    settings[key := value]
  }

  /** Making the same change twice is the same as making it once. */
  lemma ChangeIsIdempotent(settings: Record, key: string, value: SettingValue)
    ensures WithSetting(WithSetting(settings, key, value), key, value) == WithSetting(settings, key, value)
  {
  }

  /** Of two changes to one key the later one wins. */
  lemma LaterChangeWins(settings: Record, key: string, first: SettingValue, second: SettingValue)
    ensures WithSetting(WithSetting(settings, key, first), key, second) == WithSetting(settings, key, second)
  {
  }

  /** Changes to different keys commute. */
  lemma ChangesToDifferentKeysCommute(settings: Record, k1: string, v1: SettingValue, k2: string, v2: SettingValue)
    requires k1 != k2
    ensures WithSetting(WithSetting(settings, k1, v1), k2, v2) == WithSetting(WithSetting(settings, k2, v2), k1, v1)
  {
  }

  // ---------------------------------------------------------------------------------------
  // Avatar initials

  /** `s.split(' ')`: the pieces between single spaces; consecutive, leading or trailing spaces
      give empty pieces, and there is always at least one piece. */
  function SplitOnSpace(s: string): (pieces: seq<string>)
    ensures |pieces| >= 1
    ensures forall i :: 0 <= i < |pieces| ==> ' ' !in pieces[i]
  {
    if s == [] then [[]]
    else
      var rest := SplitOnSpace(s[1..]);
      if s[0] == ' ' then [[]] + rest else [[s[0]] + rest[0]] + rest[1..]
  }

  /** `pieces.join(' ')`. */
  function JoinWithSpace(pieces: seq<string>): string
    requires |pieces| >= 1
  {
    if |pieces| == 1 then pieces[0] else pieces[0] + " " + JoinWithSpace(pieces[1..])
  }

  /** Splitting loses nothing: joining the pieces with single spaces gives the name back. */
  lemma {:induction false} SplitJoinRoundTrip(s: string)
    ensures JoinWithSpace(SplitOnSpace(s)) == s
  {
    if s != [] {
      SplitJoinRoundTrip(s[1..]);
      var rest := SplitOnSpace(s[1..]);
      if s[0] == ' ' {
        assert ([[]] + rest)[1..] == rest;
      } else if |rest| > 1 {
        var pieces := [[s[0]] + rest[0]] + rest[1..];
        assert pieces[1..] == rest[1..];
        assert JoinWithSpace(rest) == rest[0] + " " + JoinWithSpace(rest[1..]);
      }
    }
  }

  /** `pieces.map(n => n[0]).join('')`: the first character of each piece; an empty piece gives
      `undefined`, which `join` writes as nothing. */
  function FirstChars(pieces: seq<string>): string
  {
    if pieces == [] then []
    else (if pieces[0] == [] then [] else [pieces[0][0]]) + FirstChars(pieces[1..])
  }

  function Initials(name: string): string
  {
    FirstChars(SplitOnSpace(name))
  }

  /** The initials are the first characters of the non-empty pieces, in order: one per word. */
  lemma {:induction false} FirstCharsOfWords(pieces: seq<string>)
    ensures var words := Filter((w: string) => w != [], pieces);
      && |FirstChars(pieces)| == |words|
      && forall i :: 0 <= i < |words| ==> words[i] != [] && FirstChars(pieces)[i] == words[i][0]
  {
    var words := Filter((w: string) => w != [], pieces);
    if pieces != [] {
      FirstCharsOfWords(pieces[1..]);
    }
    forall i | 0 <= i < |words| ensures words[i] != [] {
      assert words[i] in words;
    }
  }

  /** There are never more initials than pieces. */
  lemma InitialsAtMostOnePerPiece(name: string)
    ensures |Initials(name)| <= |SplitOnSpace(name)|
  {
    FirstCharsOfWords(SplitOnSpace(name));
  }

  /** Reference definition: the characters that are not a space and follow a space or the
      start of the string (`afterSpace` says whether the previous character was a space). */
  function WordStarts(s: string, afterSpace: bool): string
  {
    if s == [] then []
    else (if s[0] != ' ' && afterSpace then [s[0]] else []) + WordStarts(s[1..], s[0] == ' ')
  }

  lemma {:induction false} FirstCharsOfSplit(s: string)
    ensures FirstChars(SplitOnSpace(s)) == WordStarts(s, true)
    ensures FirstChars(SplitOnSpace(s)[1..]) == WordStarts(s, false)
  {
    if s != [] {
      FirstCharsOfSplit(s[1..]);
      var rest := SplitOnSpace(s[1..]);
      if s[0] == ' ' {
        assert ([[]] + rest)[1..] == rest;
      } else {
        var pieces := [[s[0]] + rest[0]] + rest[1..];
        assert pieces[1..] == rest[1..];
      }
    }
  }

  /** The initials are exactly the first letters of the space-separated words of the name:
      repeated, leading and trailing spaces contribute nothing. */
  lemma InitialsAreWordStarts(name: string)
    ensures Initials(name) == WordStarts(name, true)
  {
    FirstCharsOfSplit(name);
  }

  /** The default user's initials. */
  lemma InitialsOfDefaultName()
    ensures Initials("John Doe") == "JD"
  {
    InitialsAreWordStarts("John Doe");
  }

  class SettingsPage {
    var settings: Record

    /** The initial `useState` value. */
    constructor ()
      ensures settings == InitialSettings
    {
      settings := InitialSettings;
    }

    /** `handleSettingChange(key, value)`: replace the record by one where `key` maps to `value`. */
    method HandleSettingChange(key: string, value: SettingValue)
      modifies this
      ensures settings == WithSetting(old(settings), key, value)
    {
      settings := settings[key := value];
    }

    /** The initials shown in the avatar; the name field always holds text. */
    function AvatarInitials(): (r: string)
      reads this
      requires "name" in settings && settings["name"].Text?
      ensures r == WordStarts(settings["name"].text, true)
    {
      InitialsAreWordStarts(settings["name"].text);
      Initials(settings["name"].text)
    }
  }
}
