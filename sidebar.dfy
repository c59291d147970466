/** The sidebar's navigation state: one button per navigation key, the
    active key, and the rule that exactly the active key's button is shown
    highlighted. A navigation click on another key announces it. */
module Sidebar {
  import Counting

  /** The keys of the button dictionary, in insertion order: a repeated
      item key keeps its first position (the later button replaces the
      earlier one under the same key). */
  function DictKeys(ks: seq<string>): (r: seq<string>)
    ensures forall k :: k in r <==> k in ks
    ensures forall i, j :: 0 <= i < j < |r| ==> r[i] != r[j]
    ensures forall i, j, p :: 0 <= i < j < |r| && 0 <= p < |ks| && ks[p] == r[j] ==> r[i] in ks[..p]
    ensures ks != [] ==> r != [] && r[0] == ks[0]
  {
    var r := Counting.FirstSeen(ks);
    Counting.FirstSeenElems(ks);
    Counting.FirstSeenOrder(ks);
    if ks != [] then Counting.FirstSeenHead(ks); r else r
  }

  /** The highlight each button gets for an active key. */
  function Highlights(buttonKeys: seq<string>, active: string): (m: map<string, bool>)
  {
    map k | k in buttonKeys :: k == active
  }

  /** The keys whose buttons are highlighted. */
  function HighlightedKeys(m: map<string, bool>): set<string>
  {
    set k | k in m && m[k]
  }

  /** At most one button is highlighted: the active key's, and none when
      the active key has no button. */
  lemma OnlyActiveHighlighted(buttonKeys: seq<string>, active: string)
    ensures HighlightedKeys(Highlights(buttonKeys, active)) == if active in buttonKeys then {active} else {}
  {
    var m := Highlights(buttonKeys, active);
    if active in buttonKeys {
      assert active in HighlightedKeys(m);
    }
  }

  class SidebarNav {
    const itemKeys: seq<string>
    const buttonKeys: seq<string>
    var activeKey: string
    var highlighted: map<string, bool>
    /** The keys sent with `nav_clicked`, in order. */
    var emitted: seq<string>

    predicate Valid()
      reads this
    {
      buttonKeys == DictKeys(itemKeys) && highlighted == Highlights(buttonKeys, activeKey)
    }

    /** A new sidebar: the first item's key is active, or "" when there are
        no items; the buttons are styled accordingly. */
    constructor(itemKeys: seq<string>)
      ensures Valid() && this.itemKeys == itemKeys && emitted == []
      ensures activeKey == if itemKeys == [] then "" else itemKeys[0]
    {
      this.itemKeys := itemKeys;
      buttonKeys := DictKeys(itemKeys);
      activeKey := if itemKeys == [] then "" else itemKeys[0];
      highlighted := map k | k in DictKeys(itemKeys) :: false;
      emitted := [];
      new;
      UpdateButtonStyles();
    }

    /** `_update_button_styles`: each button in turn gets the highlighted
        style exactly when its key is the active one. */
    method UpdateButtonStyles()
      requires highlighted.Keys == set k | k in buttonKeys
      modifies this
      ensures highlighted == Highlights(buttonKeys, activeKey)
      ensures activeKey == old(activeKey) && emitted == old(emitted)
    {
      var styles := highlighted;
      for i := 0 to |buttonKeys|
        invariant styles.Keys == set k | k in buttonKeys
        invariant forall j :: 0 <= j < i ==> styles[buttonKeys[j]] == (buttonKeys[j] == activeKey)
      {
        styles := styles[buttonKeys[i] := buttonKeys[i] == activeKey];
      }
      highlighted := styles;
    }

    /** `_on_nav`: a click on the active key changes and announces
        nothing; any other key becomes active, the buttons are restyled and
        the key is announced once. */
    method OnNav(key: string)
      requires Valid()
      modifies this
      ensures Valid() && activeKey == key
      ensures emitted == if key == old(activeKey) then old(emitted) else old(emitted) + [key]
      ensures key == old(activeKey) ==> highlighted == old(highlighted)
    {
      if key == activeKey {
        return;
      }
      activeKey := key;
      UpdateButtonStyles();
      emitted := emitted + [key];
    }

    /** `set_active`: the key becomes active and the buttons are restyled,
        with nothing announced. */
    method SetActive(key: string)
      requires Valid()
      modifies this
      ensures Valid() && activeKey == key && emitted == old(emitted)
    {
      activeKey := key;
      UpdateButtonStyles();
    }
  }

  /** A new sidebar with items highlights exactly its first item's button. */
  lemma FirstItemHighlighted(s: SidebarNav)
    requires s.Valid() && s.itemKeys != [] && s.activeKey == s.itemKeys[0]
    ensures HighlightedKeys(s.highlighted) == {s.itemKeys[0]}
  {
    OnlyActiveHighlighted(s.buttonKeys, s.activeKey);
  }
}
