/**
  The contents of the help overlay: a title carrying the program's version,
  then three sections, each a divider, a bold heading and a divider, an
  optional plain note followed by a divider, and one line per key binding.
  A key-binding line is two spaces, the key in square brackets, then its
  description; the UI highlights the bracketed parts, and only the raw text of
  each line is modelled here.
 */
module Help {
  import opened Wrappers

  /** One line of the help overlay, by the style it is shown in. */
  datatype Line =
    | Title(text: string)
    | Divider
    | Header(text: string)
    | Plain(text: string)
    | Keys(text: string)

  /** A key name as shown between brackets: non-empty, and itself free of
      brackets, so that the UI has something to highlight. */
  type Key = s: string | (0 < |s| && forall m :: 0 <= m < |s| ==> s[m] != '[' && s[m] != ']')
    witness "X"

  /** A key binding: the key as shown between brackets, and the rest of its line. */
  datatype KeyHelp = KeyHelp(key: Key, description: string)

  /** A section of the help text. */
  datatype Section = Section(heading: string, note: Option<string>, keys: seq<KeyHelp>)

  const Sections: seq<Section> := [
    Section("General usage", None, [
      KeyHelp("Arrow keys", " or [H/J/K/L] to move around and scroll content"),
      KeyHelp("PageUp", " and [PageDown] to scroll content"),
      KeyHelp("Enter", " or [Space] to activate buttons and menu options"),
      KeyHelp("Esc", " or [Q] to go back, close overlays, such as menus and this help text")
    ]),
    Section("General keys", None, [
      KeyHelp("Q", " - quit toot"),
      KeyHelp("G", " - go to - switch timelines"),
      KeyHelp("H", " - show this help")
    ]),
    Section("Status keys", Some("These commands are applied to the currently focused status."), [
      KeyHelp("B", " - Boost/unboost status"),
      KeyHelp("C", " - Compose new status"),
      KeyHelp("F", " - Favourite/unfavourite status"),
      KeyHelp("R", " - Reply to current status"),
      KeyHelp("S", " - Show text marked as sensitive"),
      KeyHelp("T", " - Show status thread (replies)"),
      KeyHelp("U", " - Show the status data in JSON as received from the server"),
      KeyHelp("V", " - Open status in default browser")
    ])
  ]

  /** `s` contains a key token: a `[` and a later `]` with at least one
      character, and no bracket, between them. */
  ghost predicate HasKeyToken(s: string)
  {
    exists i, j :: 0 <= i && i + 1 < j < |s| && s[i] == '[' && s[j] == ']' &&
      forall m :: i < m < j ==> s[m] != '[' && s[m] != ']'
  }

  /** Every key-binding line has a key token. */
  ghost predicate KeyLinesMarked(lines: seq<Line>)
  {
    forall k :: 0 <= k < |lines| && lines[k].Keys? ==> HasKeyToken(lines[k].text)
  }

  /** Every heading has a divider directly above and directly below it. */
  ghost predicate HeadersFramed(lines: seq<Line>)
  {
    forall k :: 0 <= k < |lines| && lines[k].Header? ==>
      0 < k < |lines| - 1 && lines[k - 1].Divider? && lines[k + 1].Divider?
  }

  ghost predicate NoTitle(lines: seq<Line>)
  {
    forall k :: 0 <= k < |lines| ==> !lines[k].Title?
  }

  /** The text of a key-binding line. */
  function KeyText(kh: KeyHelp): (s: string)
    ensures HasKeyToken(s)
    ensures |s| == |kh.key| + |kh.description| + 4
  {
    var s := "  [" + kh.key + "]" + kh.description;
    assert s[2] == '[' && s[|kh.key| + 3] == ']';
    assert forall m :: 2 < m < |kh.key| + 3 ==> s[m] == kh.key[m - 3];
    s
  }

  /** A key-binding line is two spaces, the key between brackets, then the
      description. */
  lemma KeyTextParts(kh: KeyHelp)
    ensures var s := KeyText(kh);
            && s[..3] == "  ["
            && s[3..|kh.key| + 3] == kh.key
            && s[|kh.key| + 3] == ']'
            && s[|kh.key| + 4..] == kh.description
  {
  }

  /** One key-binding line per binding, in order. */
  function KeyLines(keys: seq<KeyHelp>): (r: seq<Line>)
    ensures |r| == |keys|
    ensures forall k :: 0 <= k < |r| ==> r[k].Keys?
  {
    if |keys| == 0 then [] else [Keys(KeyText(keys[0]))] + KeyLines(keys[1..])
  }

  /** Line `k` of `KeyLines(keys)` is the line of binding `k`. */
  lemma {:induction false} KeyLinesText(keys: seq<KeyHelp>)
    ensures forall k :: 0 <= k < |keys| ==> KeyLines(keys)[k] == Keys(KeyText(keys[k]))
  {
    if |keys| > 0 {
      KeyLinesText(keys[1..]);
      forall k | 0 < k < |keys|
        ensures KeyLines(keys)[k] == Keys(KeyText(keys[k]))
      {
        assert KeyLines(keys)[k] == KeyLines(keys[1..])[k - 1];
        assert keys[1..][k - 1] == keys[k];
      }
    }
  }

  /** The lines of one section: divider, heading, divider, then the note and
      a divider if there is a note, then one line per binding. */
  function SectionLines(sec: Section): (r: seq<Line>)
    ensures |r| == 3 + (if sec.note.Some? then 2 else 0) + |sec.keys|
    ensures r[0].Divider? && r[1] == Header(sec.heading) && r[2].Divider?
    ensures sec.note.Some? ==> r[3] == Plain(sec.note.value) && r[4].Divider?
    ensures forall k :: |r| - |sec.keys| <= k < |r| ==> r[k].Keys?
  {
    var note := if sec.note.Some? then [Plain(sec.note.value), Divider] else [];
    [Divider, Header(sec.heading), Divider] + note + KeyLines(sec.keys)
  }

  /** A section has no title, marks every key line, and frames its heading. */
  lemma SectionLinesWellFormed(sec: Section)
    ensures NoTitle(SectionLines(sec))
    ensures KeyLinesMarked(SectionLines(sec))
    ensures HeadersFramed(SectionLines(sec))
  {
    var r := SectionLines(sec);
    SectionKeyLinesText(sec);
    forall k | 0 <= k < |r| && r[k].Keys?
      ensures HasKeyToken(r[k].text)
    {
      var b := k - (|r| - |sec.keys|);
      assert r[k] == Keys(KeyText(sec.keys[b]));
    }
  }

  /** The last lines of a section are its bindings' lines, in order. */
  lemma SectionKeyLinesText(sec: Section)
    ensures forall k :: 0 <= k < |sec.keys| ==>
              SectionLines(sec)[|SectionLines(sec)| - |sec.keys| + k] == Keys(KeyText(sec.keys[k]))
  {
    var r := SectionLines(sec);
    var keyLines := KeyLines(sec.keys);
    KeyLinesText(sec.keys);
    assert r[|r| - |sec.keys|..] == keyLines;
    forall k | 0 <= k < |sec.keys|
      ensures r[|r| - |sec.keys| + k] == Keys(KeyText(sec.keys[k]))
    {
      assert r[|r| - |sec.keys| + k] == keyLines[k];
    }
  }

  /** The lines of several sections, one after the other. */
  function SectionsLines(secs: seq<Section>): seq<Line>
  {
    if |secs| == 0 then [] else SectionLines(secs[0]) + SectionsLines(secs[1..])
  }

  /** Any run of sections has no title, marks every key line, and frames
      every heading. */
  lemma {:induction false} SectionsLinesWellFormed(secs: seq<Section>)
    ensures NoTitle(SectionsLines(secs))
    ensures KeyLinesMarked(SectionsLines(secs))
    ensures HeadersFramed(SectionsLines(secs))
  {
    if |secs| > 0 {
      SectionLinesWellFormed(secs[0]);
      SectionsLinesWellFormed(secs[1..]);
      ConcatPreserves(SectionLines(secs[0]), SectionsLines(secs[1..]));
    }
  }

  lemma ConcatPreserves(a: seq<Line>, b: seq<Line>)
    requires NoTitle(a) && KeyLinesMarked(a) && HeadersFramed(a)
    requires NoTitle(b) && KeyLinesMarked(b) && HeadersFramed(b)
    ensures NoTitle(a + b) && KeyLinesMarked(a + b) && HeadersFramed(a + b)
  {
    var c := a + b;
    forall k | 0 <= k < |c| && c[k].Header?
      ensures 0 < k < |c| - 1 && c[k - 1].Divider? && c[k + 1].Divider?
    {
      if k >= |a| {
        assert c[k] == b[k - |a|];
        assert c[k - 1] == b[k - 1 - |a|];
        assert c[k + 1] == b[k + 1 - |a|];
      }
    }
    forall k | 0 <= k < |c| && c[k].Keys?
      ensures HasKeyToken(c[k].text)
    {
      if k >= |a| {
        assert c[k] == b[k - |a|];
      }
    }
  }

  /** The title line for `version` put above `body`. */
  function Titled(version: string, body: seq<Line>): (r: seq<Line>)
    requires NoTitle(body) && KeyLinesMarked(body) && HeadersFramed(body)
    ensures |r| == |body| + 1 && r[1..] == body
    ensures r[0] == Title("toot " + version) && r[0].text[5..] == version
    ensures NoTitle(r[1..]) && KeyLinesMarked(r) && HeadersFramed(r)
  {
    var r := [Title("toot " + version)] + body;
    assert r[1..] == body;
    forall k | 0 <= k < |r| && r[k].Header?
      ensures 0 < k < |r| - 1 && r[k - 1].Divider? && r[k + 1].Divider?
    {
      assert r[k] == body[k - 1];
    }
    forall k | 0 <= k < |r| && r[k].Keys?
      ensures HasKeyToken(r[k].text)
    {
      assert r[k] == body[k - 1];
    }
    r
  }

  /** The help overlay for a given version: the title shows "toot " followed
      by the version, no other line is a title, every key-binding line has a
      bracketed key, and every heading sits between two dividers. */
  function Contents(version: string): (r: seq<Line>)
    ensures 0 < |r| && r[0] == Title("toot " + version)
    ensures r[0].text[5..] == version
    ensures NoTitle(r[1..])
    ensures KeyLinesMarked(r)
    ensures HeadersFramed(r)
  {
    SectionsLinesWellFormed(Sections);
    Titled(version, SectionsLines(Sections))
  }

  /** The version is interpolated into the title only: every other line is
      the same whatever the version. */
  lemma VersionOnlyInTitle(v: string, w: string)
    ensures |Contents(v)| == |Contents(w)|
    ensures forall k :: 1 <= k < |Contents(v)| ==> Contents(v)[k] == Contents(w)[k]
  {
  }

  /** The overlay's layout: 27 lines, with the three headings, the note and
      the dividers where the UI shows them, and key-binding lines everywhere
      else. */
  lemma ContentsShape(version: string)
    ensures |Contents(version)| == 27
    ensures Contents(version)[2] == Header("General usage")
    ensures Contents(version)[9] == Header("General keys")
    ensures Contents(version)[15] == Header("Status keys")
    ensures Contents(version)[17] == Plain("These commands are applied to the currently focused status.")
    ensures forall k :: 0 <= k < 27 ==> (Contents(version)[k].Divider? <==> k in {1, 3, 8, 10, 14, 16, 18})
    ensures forall k :: 0 <= k < 27 ==> (Contents(version)[k].Keys? <==> (4 <= k <= 7 || 11 <= k <= 13 || 19 <= k))
  {
    BodyShape();
    var r := Contents(version);
    var body := SectionsLines(Sections);
    assert r[1..] == body;
    forall k | 1 <= k < 27
      ensures r[k] == body[k - 1]
    {
    }
  }

  /** Each key-binding line of the overlay is the line of its binding, in the
      order the sections list them. */
  lemma ContentsKeyLines(version: string)
    ensures forall k :: 0 <= k < 4 ==> Contents(version)[4 + k] == Keys(KeyText(Sections[0].keys[k]))
    ensures forall k :: 0 <= k < 3 ==> Contents(version)[11 + k] == Keys(KeyText(Sections[1].keys[k]))
    ensures forall k :: 0 <= k < 8 ==> Contents(version)[19 + k] == Keys(KeyText(Sections[2].keys[k]))
  {
    SectionsLayout();
    BodyIsSections();
    SectionKeyLinesText(Sections[0]);
    SectionKeyLinesText(Sections[1]);
    SectionKeyLinesText(Sections[2]);
    var s0, s1, s2 := SectionLines(Sections[0]), SectionLines(Sections[1]), SectionLines(Sections[2]);
    var r := Contents(version);
    assert r[1..] == s0 + s1 + s2;
    forall k | 0 <= k < 4
      ensures r[4 + k] == Keys(KeyText(Sections[0].keys[k]))
    {
      assert r[4 + k] == s0[3 + k];
    }
    forall k | 0 <= k < 3
      ensures r[11 + k] == Keys(KeyText(Sections[1].keys[k]))
    {
      assert r[11 + k] == s1[3 + k];
    }
    forall k | 0 <= k < 8
      ensures r[19 + k] == Keys(KeyText(Sections[2].keys[k]))
    {
      assert r[19 + k] == s2[5 + k];
    }
  }

  /** The layout of the lines under the title. */
  lemma BodyShape()
    ensures |SectionsLines(Sections)| == 26
    ensures SectionsLines(Sections)[1] == Header("General usage")
    ensures SectionsLines(Sections)[8] == Header("General keys")
    ensures SectionsLines(Sections)[14] == Header("Status keys")
    ensures SectionsLines(Sections)[16] == Plain("These commands are applied to the currently focused status.")
    ensures forall k :: 0 <= k < 26 ==> (SectionsLines(Sections)[k].Divider? <==> k in {0, 2, 7, 9, 13, 15, 17})
    ensures forall k :: 0 <= k < 26 ==> (SectionsLines(Sections)[k].Keys? <==> (3 <= k <= 6 || 10 <= k <= 12 || 18 <= k))
  {
    SectionsLayout();
    BodyIsSections();
    var s0, s1, s2 := SectionLines(Sections[0]), SectionLines(Sections[1]), SectionLines(Sections[2]);
    var body := SectionsLines(Sections);
    forall k | 0 <= k < 26
      ensures body[k].Divider? <==> k in {0, 2, 7, 9, 13, 15, 17}
      ensures body[k].Keys? <==> (3 <= k <= 6 || 10 <= k <= 12 || 18 <= k)
    {
      if k < 7 {
        assert body[k] == s0[k];
      } else if k < 13 {
        assert body[k] == s1[k - 7];
      } else {
        assert body[k] == s2[k - 13];
      }
    }
    assert body[1] == s0[1] && body[8] == s1[1] && body[14] == s2[1] && body[16] == s2[3];
  }

  /** The three sections: their headings, the one note, and how many
      bindings each lists. */
  lemma SectionsLayout()
    ensures |Sections| == 3
    ensures Sections[0].heading == "General usage" && Sections[0].note.None? && |Sections[0].keys| == 4
    ensures Sections[1].heading == "General keys" && Sections[1].note.None? && |Sections[1].keys| == 3
    ensures Sections[2].heading == "Status keys" && |Sections[2].keys| == 8
    ensures Sections[2].note == Some("These commands are applied to the currently focused status.")
  {
  }

  /** The body is the three sections' lines, one after the other. */
  lemma BodyIsSections()
    ensures SectionsLines(Sections) ==
              SectionLines(Sections[0]) + SectionLines(Sections[1]) + SectionLines(Sections[2])
  {
    SectionsLayout();
    assert Sections == [Sections[0], Sections[1], Sections[2]];
    ThreeSections(Sections[0], Sections[1], Sections[2]);
  }

  lemma ThreeSections(a: Section, b: Section, c: Section)
    ensures SectionsLines([a, b, c]) == SectionLines(a) + SectionLines(b) + SectionLines(c)
  {
    assert [a, b, c][1..] == [b, c] && [b, c][1..] == [c] && [c][1..] == [];
    assert SectionsLines([c]) == SectionLines(c);
    assert SectionsLines([b, c]) == SectionLines(b) + SectionLines(c);
  }
}
