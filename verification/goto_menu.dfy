/**
  The "go to" menu of the terminal UI: a fixed list of seven items (three
  timeline buttons, a divider, the hashtag edit box and two hashtag buttons).
  Pressing a button either emits exactly one navigation signal to the host or,
  for a hashtag button whose edit text strips to nothing, moves focus to the
  edit box and emits nothing.

  Emission is modelled as the `Option<MenuAction>` a press returns; the menu's
  state is the edit-box text and the index of the focused item.
 */
module GotoMenu {
  import opened Wrappers
  import opened Text

  /** What the menu asks its host to do. */
  datatype MenuAction =
    | Home
    | Public(local: bool)
    | Hashtag(tag: string, local: bool)

  /** The behaviour bound to a button. */
  datatype Press =
    | PressHome
    | PressLocalPublic
    | PressGlobalPublic
    | PressHashtag(local: bool)

  datatype MenuItem =
    | Button(title: string, onPress: Press)
    | Divider
    | HashtagEdit(caption: string)

  /** The menu's items, in display order. */
  const Items: seq<MenuItem> := [
    Button("Home timeline", PressHome),
    Button("Local public timeline", PressLocalPublic),
    Button("Global public timeline", PressGlobalPublic),
    Divider,
    HashtagEdit("Hashtag: "),
    Button("Local hashtag timeline", PressHashtag(true)),
    Button("Public hashtag timeline", PressHashtag(false))
  ]

  /** The position the empty-hashtag path moves focus to. */
  const EditIndex: nat := 4

  /** The signal names the menu declares. */
  const Signals: seq<string> := ["home_timeline", "public_timeline", "hashtag_timeline"]

  /** The edit-box text and the index of the focused item. */
  datatype MenuState = MenuState(editText: string, focus: nat)

  /** The outcome of one press: the signal emitted, if any, and the new state. */
  datatype Step = Step(emitted: Option<MenuAction>, next: MenuState)

  /** The signal an action is emitted on; it is always a declared one, and
      each kind of action has its own. */
  function SignalName(a: MenuAction): (name: string)
    ensures name in Signals
    ensures name == Signals[0] <==> a.Home?
    ensures name == Signals[1] <==> a.Public?
    ensures name == Signals[2] <==> a.Hashtag?
  {
    match a
    case Home => "home_timeline"
    case Public(_) => "public_timeline"
    case Hashtag(_, _) => "hashtag_timeline"
  }

  /** The hashtag typed into the edit box: its text without surrounding
      whitespace. */
  function GetHashtag(st: MenuState): (tag: string)
    ensures IsStripOf(st.editText, tag)
    ensures NoEdgeWhitespace(tag)
    ensures |tag| == 0 <==> AllWhitespace(st.editText)
  {
    StripEmptyIff(st.editText);
    Strip(st.editText)
  }

  /** What pressing a button with behaviour `p` does. */
  function PressButton(p: Press, st: MenuState): (r: Step)
    ensures r.next.editText == st.editText
    ensures r.emitted.Some? ==> r.next == st
    ensures r.next.focus != st.focus ==> r.emitted.None? && p.PressHashtag? && r.next.focus == EditIndex
    ensures r.emitted.Some? && r.emitted.value.Hashtag? ==>
              && p == PressHashtag(r.emitted.value.local)
              && 0 < |r.emitted.value.tag|
              && NoEdgeWhitespace(r.emitted.value.tag)
              && IsStripOf(st.editText, r.emitted.value.tag)
  {
    match p
    case PressHome => Step(Some(Home), st)
    case PressLocalPublic => Step(Some(Public(true)), st)
    case PressGlobalPublic => Step(Some(Public(false)), st)
    case PressHashtag(local) =>
      var tag := GetHashtag(st);
      if |tag| > 0 then Step(Some(Hashtag(tag, local)), st)
      else Step(None, st.(focus := EditIndex))
  }

  /** Pressing the item at `index`. Items that are not buttons do nothing.
      At most one action is emitted, only by a button and on the signal that
      button is bound to; the edit text never
      changes; focus moves only when a hashtag button finds no hashtag, and
      then to the edit box; an emitted hashtag is non-empty and unpadded. */
  function Activate(index: nat, st: MenuState): (r: Step)
    requires index < |Items|
    ensures r.next.editText == st.editText
    ensures r.emitted.Some? ==> r.next == st && Items[index].Button?
    ensures r.emitted.Some? ==>
              SignalName(r.emitted.value) ==
                match Items[index].onPress
                case PressHome => Signals[0]
                case PressHashtag(_) => Signals[2]
                case _ => Signals[1]
    ensures r.next.focus != st.focus ==>
              && r.emitted.None?
              && Items[index].Button? && Items[index].onPress.PressHashtag?
              && r.next.focus == EditIndex
    ensures r.emitted.Some? && r.emitted.value.Hashtag? ==>
              && 0 < |r.emitted.value.tag|
              && NoEdgeWhitespace(r.emitted.value.tag)
              && IsStripOf(st.editText, r.emitted.value.tag)
              && Items[index].Button?
              && Items[index].onPress == PressHashtag(r.emitted.value.local)
    ensures st.focus < |Items| ==> r.next.focus < |Items|
  {
    match Items[index]
    case Button(_, onPress) => PressButton(onPress, st)
    case Divider => Step(None, st)
    case HashtagEdit(_) => Step(None, st)
  }

  /** The layout: seven items in a fixed order, the edit box the only one of
      its kind and at `EditIndex`, the divider at 3, buttons everywhere else. */
  lemma ItemsLayout()
    ensures |Items| == 7
    ensures forall k :: 0 <= k < |Items| ==> (Items[k].HashtagEdit? <==> k == EditIndex)
    ensures forall k :: 0 <= k < |Items| ==> (Items[k].Divider? <==> k == 3)
    ensures forall k :: 0 <= k < |Items| ==> (Items[k].Button? <==> k !in {3, EditIndex})
    ensures Items[0].title == "Home timeline"
    ensures Items[1].title == "Local public timeline"
    ensures Items[2].title == "Global public timeline"
    ensures Items[5].title == "Local hashtag timeline"
    ensures Items[6].title == "Public hashtag timeline"
  {
  }

  /** The three timeline buttons emit their action whatever the edit text and
      the focus are, and leave the state alone; the divider and the edit box
      do nothing. */
  lemma DirectButtons(st: MenuState)
    ensures Activate(0, st) == Step(Some(Home), st)
    ensures Activate(1, st) == Step(Some(Public(true)), st)
    ensures Activate(2, st) == Step(Some(Public(false)), st)
    ensures Activate(3, st) == Step(None, st)
    ensures Activate(EditIndex, st) == Step(None, st)
  {
    assert Items[0].onPress == PressHome;
    assert Items[1].onPress == PressLocalPublic;
    assert Items[2].onPress == PressGlobalPublic;
    assert Items[3] == Divider;
    assert Items[EditIndex].HashtagEdit?;
  }

  /** A hashtag button emits exactly when the edit text has a character that
      is not whitespace, and then emits the stripped text with `local` true for
      the local button; otherwise it moves focus to the edit box. */
  lemma HashtagButtons(index: nat, st: MenuState)
    requires index == 5 || index == 6
    ensures Activate(index, st).emitted.Some? <==> !AllWhitespace(st.editText)
    ensures !AllWhitespace(st.editText) ==>
              Activate(index, st) == Step(Some(Hashtag(Strip(st.editText), index == 5)), st)
    ensures AllWhitespace(st.editText) ==>
              Activate(index, st) == Step(None, MenuState(st.editText, EditIndex))
  {
    StripEmptyIff(st.editText);
  }

  /** Whether a press emits, and what, does not depend on which item had
      focus before it. */
  lemma EmissionIgnoresFocus(index: nat, st: MenuState, focus: nat)
    requires index < |Items|
    ensures Activate(index, st).emitted == Activate(index, st.(focus := focus)).emitted
  {
    if Items[index].Button? {
      PressIgnoresFocus(Items[index].onPress, st, focus);
    }
  }

  lemma PressIgnoresFocus(p: Press, st: MenuState, focus: nat)
    ensures PressButton(p, st).emitted == PressButton(p, st.(focus := focus)).emitted
  {
    assert GetHashtag(st) == GetHashtag(st.(focus := focus));
  }

  /** A freshly opened menu: empty edit box, focus on the first button. */
  const Initial: MenuState := MenuState("", 0)

  /** A hashtag button with "news" in the edit box emits it. */
  lemma HashtagNewsExample()
    ensures Activate(5, MenuState("news", 0)) == Step(Some(Hashtag("news", true)), MenuState("news", 0))
  {
    var text := "news";
    assert text[0] == 'n' && text[3] == 's';
    assert text[..0] == [] && text[4..] == [] && text[0..4] == text;
    assert IsStripSlice(text, 0, 4);
    StripIsSlice(text, 0, 4);
    assert Strip(text) == text;
    assert !AllWhitespace(text);
    HashtagButtons(5, MenuState(text, 0));
  }

  /** Padding around the hashtag is dropped before it is emitted. */
  lemma HashtagPaddedExample()
    ensures Activate(6, MenuState(" news\t", 2)).emitted == Some(Hashtag("news", false))
  {
    var text := " news\t";
    assert text[1] == 'n' && text[4] == 's';
    assert text[1..5] == "news" && text[..1] == [' '] && text[5..] == ['\t'];
    StripIsSlice(text, 1, 5);
    HashtagButtons(6, MenuState(text, 2));
  }

  /** A hashtag button with only blanks in the edit box, or on a freshly
      opened menu, moves focus to the edit box and emits nothing. */
  lemma HashtagBlankExample()
    ensures Activate(5, MenuState("   ", 0)) == Step(None, MenuState("   ", EditIndex))
    ensures Activate(6, Initial) == Step(None, MenuState("", EditIndex))
  {
    var blank := "   ";
    assert blank[0] == ' ' && blank[1] == ' ' && blank[2] == ' ';
    assert AllWhitespace(blank);
    HashtagButtons(5, MenuState(blank, 0));
    HashtagButtons(6, Initial);
  }

  /** What the user can do to an open menu: replace the edit text, or press
      the item at an index. */
  datatype Event = Type(text: string) | PressAt(index: nat)

  predicate ValidEvent(e: Event)
  {
    e.PressAt? ==> e.index < |Items|
  }

  function Presses(events: seq<Event>): (n: nat)
    ensures n <= |events|
  {
    if |events| == 0 then 0
    else Presses(events[..|events| - 1]) + (if events[|events| - 1].PressAt? then 1 else 0)
  }

  /** Feeding a sequence of events to the menu, collecting what it emits.
      It emits at most once per press, keeps focus in range, and focus ends
      where it began or on the edit box; every emitted hashtag is non-empty
      and unpadded. */
  function Run(st: MenuState, events: seq<Event>): (r: (seq<MenuAction>, MenuState))
    requires forall k :: 0 <= k < |events| ==> ValidEvent(events[k])
    ensures |r.0| <= Presses(events)
    ensures st.focus < |Items| ==> r.1.focus < |Items|
    ensures r.1.focus == st.focus || r.1.focus == EditIndex
    ensures forall k :: 0 <= k < |r.0| && r.0[k].Hashtag? ==>
              0 < |r.0[k].tag| && NoEdgeWhitespace(r.0[k].tag)
  {
    if |events| == 0 then ([], st)
    else
      var (out, mid) := Run(st, events[..|events| - 1]);
      assert ValidEvent(events[|events| - 1]);
      match events[|events| - 1]
      case Type(text) => (out, mid.(editText := text))
      case PressAt(index) =>
        var step := Activate(index, mid);
        match step.emitted
        case Some(a) => (out + [a], step.next)
        case None => (out, step.next)
  }
}
