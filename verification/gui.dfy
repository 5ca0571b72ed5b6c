/**
 * The validation and naming layer of the tray front end: the icon names the
 * indicator is given, the icon theme name read from the configuration, and
 * what the tray menu shows when the background checker reports a status.
 */
module Gui {
  import opened Wrappers
  import opened Updater
  import Paths

  /** Label of the menu item that requests a check, shown whenever no check is pending. */
  const CheckForUpdate: string := "Check for updates"
  /** Label of the same item once it has been clicked. */
  const Checking: string := "Checking..."
  /** Label of the item that ends the program; always the last item of the menu. */
  const Quit: string := "Quit"
  /** Label of the status item before the first status arrives. */
  const Starting: string := "Starting..."

  /** Why a name was refused; each error carries the input it refused. */
  datatype NameError =
    | InvalidIconName(name: string)
    | InvalidThemeChars(name: string)

  // ---------------------------------------------------------------------------
  // Icons

  /** The three icons the indicator can show. */
  datatype Icon = Check | Alert | Cross {

    /** The icon's file name within a theme, without extension: one of three lowercase names. */
    function AsStr(): (name: string)
      ensures name == "check" || name == "alert" || name == "cross"
      ensures IsThemeName(name) && |name| == 5
    {
      match this
      case Check => "check"
      case Alert => "alert"
      case Cross => "cross"
    }

    /** Parses an icon name; exactly the three lowercase names are accepted. */
    static function FromStr(s: string): (r: Result<Icon, NameError>)
      ensures r.Ok? <==> s == "check" || s == "alert" || s == "cross"
      ensures r.Ok? ==> r.value.AsStr() == s
      ensures r.Err? ==> r.error == InvalidIconName(s)
    {
      if s == "check" then Ok(Check)
      else if s == "alert" then Ok(Alert)
      else if s == "cross" then Ok(Cross)
      else Err(InvalidIconName(s))
    }
  }

  /** Every icon's name parses back to that icon. */
  lemma IconRoundTrip(i: Icon)
    ensures Icon.FromStr(i.AsStr()) == Ok(i)
  {
  }

  /** Distinct icons have distinct names. */
  lemma IconNamesDistinct(i: Icon, j: Icon)
    ensures i.AsStr() == j.AsStr() ==> i == j
  {
  }

  /** The parse is case sensitive and exact. */
  lemma IconNameExamples()
    ensures Icon.FromStr("Check") == Err(InvalidIconName("Check"))
    ensures Icon.FromStr("CROSS").Err? && Icon.FromStr("").Err? && Icon.FromStr("checks").Err?
    ensures Icon.FromStr("alert") == Ok(Alert)
  {
  }

  // ---------------------------------------------------------------------------
  // Icon themes

  /** The characters a theme name may hold: the lowercase ASCII letters. */
  predicate IsThemeChar(c: char)
  {
    'a' <= c <= 'z'
  }

  /** A valid theme name: every character is a theme character (the empty name included). */
  predicate IsThemeName(s: string)
  {
    forall i :: 0 <= i < |s| ==> IsThemeChar(s[i])
  }

  /** Strings known to be valid theme names; no other string can be put in a Theme. */
  type ThemeName = s: string | IsThemeName(s) witness "default"

  /**
   * Checks the characters of `s` one at a time, from the front, stopping at
   * the first one that is not a theme character.
   */
  function AllThemeChars(s: string): (b: bool)
    ensures b <==> IsThemeName(s)
  {
    |s| == 0 || (IsThemeChar(s[0]) && AllThemeChars(s[1..]))
  }

  /**
   * An icon theme name. Its field has type ThemeName, so every Theme value
   * holds a validated name whichever way it was made.
   */
  datatype Theme = Theme(s: ThemeName) {

    /** The name, for use as a directory name. */
    function AsStr(): (name: string)
      ensures IsThemeName(name)
    {
      s
    }

    /** The theme used when the configuration names none. */
    static function Default(): (t: Theme)
      ensures t.AsStr() == "default"
    {
      Theme("default")
    }

    /** Validates a theme name: accepted exactly when every character is a lowercase letter, and kept as given. */
    static function FromStr(s: string): (r: Result<Theme, NameError>)
      ensures r.Ok? <==> IsThemeName(s)
      ensures r.Ok? ==> r.value.AsStr() == s
      ensures r.Err? ==> r.error == InvalidThemeChars(s)
    {
      if AllThemeChars(s) then Ok(Theme(s)) else Err(InvalidThemeChars(s))
    }
  }

  /** The error a configuration deserializer reports. */
  datatype DeError =
    | ReadError(message: string)
    | Custom(cause: NameError)

  /**
   * Reads a theme from a configuration value: `input` is what reading the
   * value as a string gave. A failure there is passed on unchanged; a string
   * goes through Theme.FromStr, whose error becomes a custom error.
   */
  function DeserializeTheme(input: Result<string, DeError>): (r: Result<Theme, DeError>)
    ensures input.Err? ==> r == Err(input.error)
    ensures input.Ok? ==> (r.Ok? <==> Theme.FromStr(input.value).Ok?)
    ensures input.Ok? && r.Ok? ==> r == Ok(Theme.FromStr(input.value).value)
    ensures input.Ok? && r.Err? ==> r.error == Custom(Theme.FromStr(input.value).error)
    ensures r.Ok? ==> input.Ok? && r.value.AsStr() == input.value
  {
    match input
    case Err(e) => Err(e)
    case Ok(s) =>
      match Theme.FromStr(s)
      case Ok(t) => Ok(t)
      case Err(e) => Err(Custom(e))
  }

  /** An accepted theme round-trips: its name parses back to the same theme. */
  lemma ThemeRoundTrip(t: Theme)
    ensures Theme.FromStr(t.AsStr()) == Ok(t)
  {
  }

  /** The default theme's name is itself a valid theme name. */
  lemma DefaultThemeIsValid()
    ensures Theme.FromStr(Theme.Default().AsStr()) == Ok(Theme.Default())
    ensures DeserializeTheme(Ok("default")) == Ok(Theme.Default())
  {
  }

  /**
   * No accepted theme name holds a separator, a dot, a NUL, a digit, an
   * uppercase letter or anything else outside 'a'..'z'; so it is neither
   * "." nor "..".
   */
  lemma ThemeHasNoPathSpecials(t: Theme)
    ensures forall c :: c in t.AsStr() ==> 'a' <= c <= 'z'
    ensures '/' !in t.AsStr() && '.' !in t.AsStr() && '\0' !in t.AsStr() && '\\' !in t.AsStr()
    ensures forall c :: '0' <= c <= '9' ==> c !in t.AsStr()
    ensures forall c :: 'A' <= c <= 'Z' ==> c !in t.AsStr()
    ensures t.AsStr() != "." && t.AsStr() != ".."
  {
  }

  /** Which names are accepted and which are refused. */
  lemma ThemeNameExamples()
    ensures Theme.FromStr("default").Ok? && Theme.FromStr("check").Ok?
    ensures Theme.FromStr("") == Ok(Theme(""))
    ensures Theme.FromStr("../etc") == Err(InvalidThemeChars("../etc"))
    ensures Theme.FromStr("Check").Err? && Theme.FromStr("check1").Err? && Theme.FromStr("a/b").Err?
  {
  }

  /**
   * The directory searched for a theme: the theme name joined onto a search
   * directory. The search directory is never replaced, only extended, and the
   * path ends with the theme name.
   */
  function ThemeDir(base: string, t: Theme): (dir: string)
    ensures |base| + |t.AsStr()| <= |dir| <= |base| + |t.AsStr()| + 1
    ensures dir[..|base|] == base && dir[|dir| - |t.AsStr()|..] == t.AsStr()
    ensures |dir| == |base| + |t.AsStr()| + 1 ==> dir[|base|] == '/'
  {
    Paths.Join(base, t.AsStr())
  }

  /**
   * Joining a theme onto a search directory yields the directory's segments
   * followed by exactly one more, the theme name, which is neither "." nor
   * "..": the theme cannot climb out of the directory or reach below a nested
   * one. A non-empty theme names a directory one level below the search
   * directory; the empty theme adds an empty last segment instead (see
   * EmptyThemeDir).
   */
  lemma ThemeDirIsOneSegmentDeeper(base: string, t: Theme)
    ensures Paths.Segments(ThemeDir(base, t)) == Paths.Parent(Paths.Segments(base)) + [t.AsStr()]
    ensures t.AsStr() != "." && t.AsStr() != ".."
  {
    ThemeHasNoPathSpecials(t);
    Paths.JoinAddsOneSegment(base, t.AsStr());
  }

  /**
   * The empty theme, which is accepted, names the search directory itself:
   * joining it only adds a trailing separator where there is none.
   */
  lemma EmptyThemeDir(base: string)
    ensures ThemeDir(base, Theme("")) == if base == [] || base[|base| - 1] == '/' then base else base + "/"
  {
  }

  // ---------------------------------------------------------------------------
  // The tray menu

  /** A submenu entry: it shows `caption` and opens `link` when activated. */
  datatype MenuEntry = MenuEntry(caption: string, link: string)

  /**
   * One entry per update, in the updates' order: each shows its update's
   * summary and opens its advisory.
   */
  function Entries(updates: seq<Update>): (entries: seq<MenuEntry>)
    ensures |entries| == |updates|
    ensures forall k :: 0 <= k < |updates| ==> entries[k] == MenuEntry(updates[k].text, updates[k].link)
  {
    if |updates| == 0 then [] else [MenuEntry(updates[0].text, updates[0].link)] + Entries(updates[1..])
  }

  /**
   * The submenu the status item gets for a status: the updates' entries when
   * the status is MissingUpdates with at least one update, and none for every
   * other status, an empty MissingUpdates included.
   */
  function SubmenuFor(msg: Status): (sub: Option<seq<MenuEntry>>)
    ensures sub.Some? <==> msg.MissingUpdates? && |msg.updates| > 0
    ensures sub.Some? ==> |sub.value| == |msg.updates|
    ensures sub.Some? ==> forall k :: 0 <= k < |sub.value| ==>
      sub.value[k].caption == msg.updates[k].text && sub.value[k].link == msg.updates[k].link
  {
    match msg
    case MissingUpdates(updates) => if |updates| > 0 then Some(Entries(updates)) else None
    case _ => None
  }

  /** Builds the entries of a submenu by appending one entry per update. */
  method BuildSubmenu(updates: seq<Update>) returns (entries: seq<MenuEntry>)
    ensures |entries| == |updates|
    ensures forall k :: 0 <= k < |updates| ==>
      entries[k].caption == updates[k].text && entries[k].link == updates[k].link
  {
    entries := [];
    for i := 0 to |updates|
      invariant |entries| == i
      invariant forall k :: 0 <= k < i ==> entries[k] == MenuEntry(updates[k].text, updates[k].link)
    {
      entries := entries + [MenuEntry(updates[i].text, updates[i].link)];
    }
  }

  /**
   * The tray: the name of the icon the indicator shows and the menu's three
   * items, the check item, the status item (with its optional submenu) and
   * the quit item.
   */
  class Tray {
    var iconName: string
    var checkLabel: string
    var statusLabel: string
    var submenu: Option<seq<MenuEntry>>

    /** The labels of the menu's items, top to bottom. */
    function Labels(): seq<string>
      reads this
    {
      [checkLabel, statusLabel, Quit]
    }

    /** The indicator shows one of the three icon names. */
    predicate Valid()
      reads this
    {
      Icon.FromStr(iconName).Ok?
    }

    /** The tray as it is first shown: the check icon and an idle menu. */
    constructor ()
      ensures Valid() && iconName == Check.AsStr()
      ensures Labels() == [CheckForUpdate, Starting, Quit] && submenu == None
    {
      iconName := Check.AsStr();
      checkLabel := CheckForUpdate;
      statusLabel := Starting;
      submenu := None;
    }

    /** The user asks for a check: only the check item's label changes. */
    method Click()
      requires Valid()
      modifies this
      ensures Valid()
      ensures checkLabel == Checking
      ensures statusLabel == old(statusLabel) && submenu == old(submenu) && iconName == old(iconName)
    {
      checkLabel := Checking;
    }

    /**
     * A status arrives from the checker, with the text and icon it maps to.
     * The check item is reset, the status item shows the text and gets the
     * submenu the status calls for, and the indicator shows the icon.
     */
    method Receive(msg: Status, text: string, icon: Icon)
      requires Valid()
      modifies this
      ensures Valid()
      ensures Labels() == [CheckForUpdate, text, Quit]
      ensures submenu == SubmenuFor(msg)
      ensures Icon.FromStr(iconName) == Ok(icon)
    {
      checkLabel := CheckForUpdate;
      statusLabel := text;
      iconName := icon.AsStr();
      match msg
      case MissingUpdates(updates) =>
        if |updates| > 0 {
          var entries := BuildSubmenu(updates);
          assert entries == Entries(updates);
          submenu := Some(entries);
        } else {
          submenu := None;
        }
      case _ =>
        submenu := None;
    }
  }
}
