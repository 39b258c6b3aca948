# toot "go to" menu and help overlay, in Dafny

This project models the overlay layer of toot's terminal UI (`toot/tui/overlays.py`):

- **The "go to" menu** (`GotoMenu`). It is a fixed list of seven items: the buttons
  "Home timeline", "Local public timeline" and "Global public timeline", a divider,
  the "Hashtag: " edit box, and the buttons "Local hashtag timeline" and "Public
  hashtag timeline". Pressing a timeline button emits `home_timeline` or
  `public_timeline(local)`. Pressing a hashtag button strips the edit-box text. If
  anything is left, it emits `hashtag_timeline(tag, local)`. Otherwise it moves focus
  to the edit box (index 4) and emits nothing.
- **Hashtag stripping** (`Text`). This is Python's `str.strip()`, which removes leading
  and trailing whitespace as defined by `str.isspace`.
- **The help overlay's contents** (`Help`). The title reads "toot " plus the version.
  Three sections follow, each made of dividers, a bold heading, an optional note and
  key-binding lines. Each key-binding line carries a bracketed key.

The urwid signal mechanism is replaced by a return value. A press is a pure function
from the menu state (edit text, focused index) to a `Step`: the `Option<MenuAction>`
emitted, plus the next state. `Wrappers` holds the `Option` type.

`GotoMenu.Activate` takes the pressed index separately from the focused index. In the
program a press only ever reaches the focused item, by keyboard or by a mouse click
that first moves focus to the clicked row. The model deliberately allows any pair, so
its contracts (for example "whatever the prior focus" in `GotoMenu.DirectButtons`)
also cover states the program never reaches.

`Text.IsWhitespace` lists the characters that Python's `str.isspace` accepts:
U+0009–U+000D, U+001C–U+0020, U+0085, U+00A0, U+1680, U+2000–U+200A, U+2028, U+2029,
U+202F, U+205F and U+3000.

`Help.Sections` holds the help template as sections of key bindings rather than as 26
literal lines. A key line's text is rebuilt as two spaces, `[`, the key, `]`, then the
rest of the line. This gives the same strings as lines 91–113 of the source. A key
(`Help.Key`) is non-empty and contains no bracket, so every key-binding line has a
bracketed token with something in it to highlight.

## Model

| member | source | states |
|---|---|---|
| `Text.SkipLeading` | toot/tui/overlays.py:46-47 | the returned position is at or after the start, only whitespace is skipped, and it stops on a non-whitespace character or at the end |
| `Text.SkipTrailing` | toot/tui/overlays.py:46-47 | the returned end is between the lower bound and the old end, only whitespace is cut off, and the character before the new end is not whitespace |
| `Text.Strip` | toot/tui/overlays.py:46-47 | the result is a contiguous slice of the input with only whitespace outside it and no whitespace at either end |
| `Text.StripOfUnique` | toot/tui/overlays.py:46-47 | any two strings meeting the strip description for the same input are equal, so the description fixes `Strip` completely |
| `Text.StripIsSlice` | toot/tui/overlays.py:46-47 | any slice meeting the strip description is exactly what `Strip` returns |
| `Text.StripIdempotent` | toot/tui/overlays.py:46-47 | stripping a stripped string changes nothing |
| `Text.StripEmptyIff` | toot/tui/overlays.py:60-61 | the stripped text is empty (falsy) exactly when the input is empty or all whitespace |
| `Text.StripIndices` | toot/tui/overlays.py:46-47 | the two-loop scan (skip whitespace from the front, then from the back) yields bounds whose slice is the stripped text |
| `GotoMenu.SignalName` | toot/tui/overlays.py:33-37 | every action goes out on one of the three declared signals, one signal per kind of action |
| `GotoMenu.GetHashtag` | toot/tui/overlays.py:46-47 | the hashtag is the edit text stripped; it is empty exactly when the text is all whitespace, and never has edge whitespace |
| `GotoMenu.PressButton` | toot/tui/overlays.py:50-64 | a button press keeps the edit text, changes the state only on the empty-hashtag path (focus to the edit box), and any emitted hashtag is non-empty, unpadded, the strip of the text, and carries the button's `local` flag |
| `GotoMenu.Activate` | toot/tui/overlays.py:49-72 | pressing any item emits at most one action, only from a button and on that button's signal (`home_timeline` for Home, `hashtag_timeline` for the hashtag buttons, `public_timeline` otherwise); it never changes the edit text, moves focus only for a hashtag button with no hashtag and then to index 4, and keeps focus in range |
| `GotoMenu.ItemsLayout` | toot/tui/overlays.py:66-72 | seven items in the source's order; index 4 is the one edit box, index 3 the divider, the rest buttons with the source's labels |
| `GotoMenu.DirectButtons` | toot/tui/overlays.py:50-70 | Home emits `Home`, the local and global public buttons emit `Public(true)` and `Public(false)`, whatever the edit text and prior focus, with the state unchanged; the divider and edit box emit nothing |
| `GotoMenu.HashtagButtons` | toot/tui/overlays.py:59-72 | a hashtag button emits if and only if the text has a non-whitespace character; it then emits the stripped text with `local` true for the local button; otherwise it only moves focus to the edit box |
| `GotoMenu.EmissionIgnoresFocus` | toot/tui/overlays.py:50-64 | what a press emits does not depend on which item had focus before |
| `GotoMenu.HashtagNewsExample` | toot/tui/overlays.py:59-62 | the local hashtag button with "news" emits `Hashtag("news", true)` and changes nothing |
| `GotoMenu.HashtagPaddedExample` | toot/tui/overlays.py:46-62 | the public hashtag button with " news\t" emits `Hashtag("news", false)` |
| `GotoMenu.HashtagBlankExample` | toot/tui/overlays.py:40-64 | with "   " in the box, or on a fresh menu (empty box), a hashtag button emits nothing and focuses the edit box |
| `GotoMenu.Run` | toot/tui/overlays.py:46-72 | over any sequence of edits and presses: at most one emission per press, focus stays in range and ends where it began or on the edit box, and every emitted hashtag is non-empty and unpadded |
| `Help.KeyText` | toot/tui/overlays.py:91-113 | a key-binding line contains a bracketed token that is non-empty and holds no bracket |
| `Help.KeyTextParts` | toot/tui/overlays.py:91-113 | a key-binding line is two spaces, `[`, the binding's key, `]`, then the binding's description |
| `Help.KeyLines` | toot/tui/overlays.py:91-113 | one key-binding line per binding, all tagged as key lines (their text is stated by `Help.KeyLinesText`) |
| `Help.KeyLinesText` | toot/tui/overlays.py:91-113 | line k of the key lines is the line of binding k, for every k |
| `Help.SectionLines` | toot/tui/overlays.py:88-113 | a section is divider, heading, divider, then the optional note and its divider, then one key line per binding |
| `Help.SectionKeyLinesText` | toot/tui/overlays.py:88-113 | the last lines of a section are its bindings' lines, in order |
| `Help.SectionLinesWellFormed` | toot/tui/overlays.py:88-113 | a section has no title, every key line has a non-empty bracketed key, and its heading sits between two dividers |
| `Help.SectionsLinesWellFormed` | toot/tui/overlays.py:88-113 | any run of sections has no title line, every key line has a non-empty bracketed key, and every heading has a divider directly above and below |
| `Help.Titled` | toot/tui/overlays.py:87 | the title line "toot " + version is added on top of the body, and the body's structure is kept |
| `Help.Contents` | toot/tui/overlays.py:82-113 | the first line is the title "toot " + version; no other line is a title; every key line has a non-empty, bracket-free bracketed key; every heading sits between dividers |
| `Help.VersionOnlyInTitle` | toot/tui/overlays.py:87-113 | every line after the title is the same for every version |
| `Help.ContentsShape` | toot/tui/overlays.py:87-113 | 27 lines, headings at 2, 9 and 15, the note at 17, dividers at 1, 3, 8, 10, 14, 16 and 18, and key lines everywhere else after the title |
| `Help.ContentsKeyLines` | toot/tui/overlays.py:91-113 | lines 4-7, 11-13 and 19-26 are the lines of the three sections' bindings, in order |
| `Help.BodyShape` | toot/tui/overlays.py:88-113 | the 26 lines under the title have the headings at 1, 8 and 14, the note at 16, dividers at 0, 2, 7, 9, 13, 15 and 17, and key lines everywhere else |
| `Help.SectionsLayout` | toot/tui/overlays.py:89-113 | three sections with the source's headings, the note only in "Status keys", and 4, 3 and 8 key bindings |
| `Help.BodyIsSections` | toot/tui/overlays.py:88-113 | the lines under the title are the three sections' lines, one after the other |

## Left out

- `StatusSource` (toot/tui/overlays.py:11-19) is left out. It is `json.dumps(indent=4)` plus `splitlines`, both library behaviour.
- `ExceptionStackTrace` (toot/tui/overlays.py:22-29) is left out. It is a wrapper over `traceback.format_exception`.
- The scrolling line view (`urwid.ListBox`) is left out. Key-driven focus movement, page scrolling and the `Padding` of the help overlay are all urwid internals.
- urwid's signal registration and `_emit` are left out. An emission is the `emitted` field of the returned `Step`.
- Keystroke editing inside the `EditBox` is left out. `GotoMenu.Run` models an edit as replacing the whole edit text (`Type`).
- `highlight_keys` (toot/tui/utils) is not part of this model. Only the raw text of the help lines is modelled, not the cyan highlight attributes.
- Closing the overlay after an emission is left out, because the host does it, not the menu. The menu's own state is unchanged after an emission.
- `Help.VersionOnlyInTitle`: this states that only the title depends on the version. It does not prove that no fixed line happens to contain the version string as a substring.
- `Help.ContentsShape`: this states the layout and the headings. `Help.ContentsKeyLines` and `Help.KeyTextParts` tie each key line to its binding in `Help.Sections`, but no line is restated as one literal string equal to the source's.
