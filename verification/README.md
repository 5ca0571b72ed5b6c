# arch-audit-gtk tray: icon names, theme names and the status menu

arch-audit-gtk puts an icon in the system tray that shows whether installed
Arch Linux packages are affected by published security advisories. A
background checker sends a status to the tray each time it finishes a check.
This project models the tray front end's validation and naming layer in
`src/gui.rs`:

- **Icon names.** The indicator shows one of three icons, `check`, `alert` and
  `cross`. `Gui.Icon` is that closed set. `AsStr` gives each icon's name and
  `Icon.FromStr` parses names back. Exactly the three lowercase names are
  accepted, and every other string is refused with an error that carries it.
- **Icon theme names.** A theme name from the configuration is later joined
  onto a search directory, so it is validated first. `Gui.Theme` holds a
  `ThemeName`, a string subset type whose members all satisfy the validity
  predicate. Every `Theme` value therefore holds a validated name.
  `Theme.FromStr` accepts a string exactly when each of its characters lies in
  `'a'..'z'`, and keeps the string as given. `DeserializeTheme` is the
  configuration reader's path into `FromStr`. The default theme is
  `"default"`. The path join is modelled too. Joining an accepted theme onto
  a directory never replaces the directory. It adds exactly one path segment,
  the theme name, and that segment is neither `.` nor `..`. A non-empty theme
  therefore names a directory one level below the search directory. The empty
  theme adds an empty last segment, so it names the search directory itself.
- **The status menu.** The menu has three items: a "Check for updates" item,
  a status item and "Quit". `Gui.Tray` holds what the menu shows and the name
  of the indicator's icon. Clicking the check item relabels it "Checking...".
  Receiving a status resets that label and shows the status text. The status
  item gets a submenu with one entry per update, in order, when the status is
  `MissingUpdates` with at least one update. Every other status removes the
  submenu, including an empty `MissingUpdates`. `SubmenuFor` states that
  decision as a function, and `BuildSubmenu` is the loop that appends the
  entries.

Files: `wrappers.dfy` (Option and Result), `updater.dfy` (the `Status` and
`Update` values the checker sends), `paths.dfy` (Unix path join and splitting
into segments), `gui.dfy` (everything above).

The empty theme name is accepted. The character check requires every
character to be a lowercase letter, and an empty string has no character that
could fail it. `ThemeNameExamples` records `Theme.FromStr("") == Ok(Theme(""))`.
Joined onto a search directory, the empty name gives that directory itself,
with a trailing separator. An invalid theme makes deserialization fail;
`src/gui.rs` does not fall back to `"default"` on its own. What the
configuration loader does with that error is not part of this model.

`Status` and `Update` are declared in `src/updater.rs`, and `src/updater.rs`
is not part of this model. Here `Status` has the variants `UpToDate`,
`MissingUpdates(updates)` and `Error(message)`. The menu decision at
src/gui.rs:172-193 only tells a `MissingUpdates` with a non-empty list apart
from every other status. So the other variants stand for "any other status",
and their exact set does not affect what is proved.

## Model

| member | source | states |
|---|---|---|
| `Gui.Icon.FromStr` | src/gui.rs:34-44 | succeeds exactly on "check", "alert" and "cross"; on success the icon's name is the input; otherwise the error carries the input |
| `Gui.Icon.AsStr` | src/gui.rs:25-31 | every icon is named by one of the three fixed names "check", "alert" and "cross", each five lowercase letters |
| `Gui.IconRoundTrip` | src/gui.rs:25-44 | parsing an icon's name gives back that icon |
| `Gui.IconNamesDistinct` | src/gui.rs:25-31 | the three icons have three distinct names (the naming is injective) |
| `Gui.IconNameExamples` | src/gui.rs:37-43 | the parse is exact and case sensitive: "Check", "CROSS", "" and "checks" are refused |
| `Gui.AllThemeChars` | src/gui.rs:83 | the short-circuit character-by-character check holds exactly when every character of the string is in 'a'..'z' |
| `Gui.Theme.FromStr` | src/gui.rs:79-89 | accepts exactly the strings whose characters all lie in 'a'..'z' (the empty string too); the accepted theme stores the input unchanged; a refusal carries the input |
| `Gui.Theme.AsStr` | src/gui.rs:52-56 | the name a theme gives out is always a valid theme name |
| `Gui.Theme.Default` | src/gui.rs:58-64 | the default theme's name is "default" |
| `Gui.DeserializeTheme` | src/gui.rs:66-73 | a failure to read a string is passed on unchanged; for a string, it succeeds exactly when `Theme.FromStr` does, with the same theme, and otherwise fails with `FromStr`'s error as a custom error |
| `Gui.ThemeRoundTrip` | src/gui.rs:53-55 | the name of any theme parses back to that same theme |
| `Gui.DefaultThemeIsValid` | src/gui.rs:58-89 | "default" passes `FromStr` and deserialization, giving the default theme |
| `Gui.ThemeHasNoPathSpecials` | src/gui.rs:76-88 | no theme name contains '/', '.', NUL, '\', a digit, an uppercase letter or any other character outside 'a'..'z', so it is neither "." nor ".." |
| `Gui.ThemeNameExamples` | src/gui.rs:82-88 | "default", "check" and "" are accepted; "../etc", "Check", "check1" and "a/b" are refused |
| `Paths.Join` | src/gui.rs:102 | `Path::join` on Unix: an absolute name replaces the base; any other name yields the base, then at most one separator, then the name |
| `Gui.ThemeDir` | src/gui.rs:102 | the theme directory starts with the search directory unchanged and ends with the theme name, with at most one separator between them |
| `Gui.ThemeDirIsOneSegmentDeeper` | src/gui.rs:100-102 | the search directory joined with a theme has the directory's segments followed by exactly one more, the theme name, which is not "." or ".." |
| `Gui.EmptyThemeDir` | src/gui.rs:102 | the empty theme, which `from_str` accepts, joined onto a search directory gives that directory itself, with a trailing separator added only where there is none |
| `Gui.Entries` | src/gui.rs:176-185 | one submenu entry per update, in the same order, each showing the update's text and opening its link |
| `Gui.SubmenuFor` | src/gui.rs:172-193 | there is a submenu exactly when the status is `MissingUpdates` with a non-empty list; it then has one entry per update in order, with the update's text and link |
| `Gui.BuildSubmenu` | src/gui.rs:174-185 | the loop yields as many entries as updates, entry k showing update k's text and opening its link |
| `Gui.Tray.constructor` | src/gui.rs:148-163 | the tray starts with the check icon and the menu "Check for updates", "Starting...", "Quit", with no submenu |
| `Gui.Tray.Click` | src/gui.rs:155-158 | a click relabels the check item "Checking..." and changes nothing else |
| `Gui.Tray.Receive` | src/gui.rs:165-198 | after a status the check item reads "Check for updates", the status item shows the status text, "Quit" stays last, the submenu is `SubmenuFor(status)`, and the icon name parses back to the status's icon |

## Left out

- The theme directory search in `TrayIcon::create` (src/gui.rs:96-115) is left out. It canonicalizes paths and tests for files on the real filesystem. Only its path join (line 102) is modelled.
- `Paths.Join` follows the standard library's `Path::join` for Unix paths only. Windows path prefixes are not modelled.
- The GTK and AppIndicator calls (`set_icon`, `add_menu`, `set_status`, `show_all`, `gtk::main`, `main_quit`) are left out. What they display is kept as the fields of `Gui.Tray`.
- `debug_icon` is left out. It only opens the tray with a fixed icon through those same calls.
- The trigger channel, the result channel, the file-watch thread and the background checker thread are left out. They are concurrency and foreign plumbing. The coordinator that collapses triggers lives in `src/updater.rs`, which is not part of this model.
- `Gui.Tray.Click` does not model sending the click event into the trigger channel. That channel is left out.
- Opening an advisory link (`opener::open`) and the logging are left out. They are external side effects. A menu entry only records the link it would open.
- `Status::text()` and `Status::icon()` are defined in `src/updater.rs`. `Gui.Tray.Receive` takes their results as parameters.
- The error messages' wording (the formatted `bail!` texts) is not modelled. An error records the kind of refusal and the refused input.
