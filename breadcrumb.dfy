/** The breadcrumb trail: a row holding, for each crumb, a button (a link
    back to that level) or, for the last crumb, a plain label, with ">"
    separators between them and a stretch closing the row. A click on a
    crumb's button announces the crumb's index. */
module Breadcrumb {

  datatype Item = Stretch | Separator | CrumbButton(text: string, index: nat) | CrumbLabel(text: string)

  /** What crumb `i` of the trail is shown as: a button for every crumb but
      the last, which is the current place and only a label. */
  function Entry(crumbs: seq<string>, i: nat): Item
    requires i < |crumbs|
  {
    if i < |crumbs| - 1 then CrumbButton(crumbs[i], i) else CrumbLabel(crumbs[i])
  }

  /** The row after the first `i` crumbs are placed: each crumb after a
      separator, except the first. */
  function Built(crumbs: seq<string>, i: nat): (r: seq<Item>)
    requires i <= |crumbs|
    ensures |r| == if i == 0 then 0 else 2 * i - 1
  {
    if i == 0 then []
    else Built(crumbs, i - 1) + (if i > 1 then [Separator] else []) + [Entry(crumbs, i - 1)]
  }

  /** The whole trail for a list of crumbs. */
  function Trail(crumbs: seq<string>): seq<Item>
  {
    Built(crumbs, |crumbs|)
  }

  /** Crumbs sit at the even positions of the row, crumb `k / 2` at
      position `k`, and separators at the odd ones. */
  lemma {:induction false} BuiltShape(crumbs: seq<string>, i: nat)
    requires i <= |crumbs|
    ensures forall k :: 0 <= k < |Built(crumbs, i)| ==>
      Built(crumbs, i)[k] == if k % 2 == 1 then Separator else Entry(crumbs, k / 2)
  {
    if i > 0 {
      BuiltShape(crumbs, i - 1);
      var prev := Built(crumbs, i - 1);
      var r := Built(crumbs, i);
      forall k | 0 <= k < |r|
        ensures r[k] == if k % 2 == 1 then Separator else Entry(crumbs, k / 2)
      {
        if k < |prev| {
          assert r[k] == prev[k];
        } else if i > 1 && k == 2 * i - 3 {
          assert k % 2 == 1;
        } else {
          assert k == 2 * i - 2 && k % 2 == 0 && k / 2 == i - 1;
        }
      }
    }
  }

  /** The shown texts of a row, left to right: everything but separators
      and the stretch. */
  function Texts(items: seq<Item>): (ts: seq<string>)
    ensures |ts| <= |items|
  {
    if items == [] then []
    else
      var last := items[|items| - 1];
      Texts(items[..|items| - 1]) + (if last.CrumbButton? || last.CrumbLabel? then [last.text] else [])
  }

  lemma {:induction false} TextsAppend(a: seq<Item>, b: seq<Item>)
    ensures Texts(a + b) == Texts(a) + Texts(b)
    decreases |b|
  {
    if b != [] {
      assert (a + b)[..|a + b| - 1] == a + b[..|b| - 1];
      assert (a + b)[|a + b| - 1] == b[|b| - 1];
      TextsAppend(a, b[..|b| - 1]);
    } else {
      assert a + b == a;
    }
  }

  lemma TextsSingle(x: Item)
    ensures Texts([x]) == if x.CrumbButton? || x.CrumbLabel? then [x.text] else []
  {
    assert [x][..0] == [];
  }

  lemma {:induction false} TextsOfBuilt(crumbs: seq<string>, i: nat)
    requires i <= |crumbs|
    ensures Texts(Built(crumbs, i)) == crumbs[..i]
  {
    if i > 0 {
      var e, x := Built(crumbs, i - 1), Entry(crumbs, i - 1);
      var sep: seq<Item> := if i > 1 then [Separator] else [];
      assert Built(crumbs, i) == e + sep + [x];
      assert x.text == crumbs[i - 1];
      TextsOfBuilt(crumbs, i - 1);
      TextsOfPlaced(e, sep, x);
      PrefixSnoc(crumbs, i);
    }
  }

  lemma PrefixSnoc(crumbs: seq<string>, i: nat)
    requires 0 < i <= |crumbs|
    ensures crumbs[..i] == crumbs[..i - 1] + [crumbs[i - 1]]
  {
  }

  /** Placing a crumb's item, after an optional separator, shows its text. */
  lemma TextsOfPlaced(e: seq<Item>, sep: seq<Item>, x: Item)
    requires sep == [] || sep == [Separator]
    requires x.CrumbButton? || x.CrumbLabel?
    ensures Texts(e + sep + [x]) == Texts(e) + [x.text]
  {
    TextsAppend(e + sep, [x]);
    TextsAppend(e, sep);
    TextsSingle(Separator);
    TextsSingle(x);
    assert Texts(sep) == [];
  }

  /** Reading the texts back off the trail gives the crumbs, in order. */
  lemma TrailShowsCrumbs(crumbs: seq<string>)
    ensures Texts(Trail(crumbs)) == crumbs
  {
    TextsOfBuilt(crumbs, |crumbs|);
  }

  /** The shape of the trail: `2n - 1` items for `n` crumbs, separators
      exactly at the odd positions, crumb `i` at position `2i`, every crumb
      but the last a button carrying its own index, and only the last a
      label. */
  lemma TrailShape(crumbs: seq<string>)
    ensures var t := Trail(crumbs);
      && |t| == (if crumbs == [] then 0 else 2 * |crumbs| - 1)
      && (forall k :: 0 <= k < |t| ==> (t[k] == Separator <==> k % 2 == 1))
      && (forall i :: 0 <= i < |crumbs| - 1 ==> t[2 * i] == CrumbButton(crumbs[i], i))
      && (crumbs != [] ==> t[|t| - 1] == CrumbLabel(crumbs[|crumbs| - 1]))
      && (forall k :: 0 <= k < |t| && t[k].CrumbLabel? ==> k == |t| - 1)
  {
    var t := Trail(crumbs);
    BuiltShape(crumbs, |crumbs|);
    forall k | 0 <= k < |t|
      ensures (t[k] == Separator <==> k % 2 == 1)
      ensures t[k].CrumbLabel? ==> k == |t| - 1
    {
      if k % 2 == 0 {
        assert t[k] == Entry(crumbs, k / 2);
      }
    }
    forall i | 0 <= i < |crumbs| - 1
      ensures t[2 * i] == CrumbButton(crumbs[i], i)
    {
      assert (2 * i) % 2 == 0 && (2 * i) / 2 == i;
    }
    if crumbs != [] {
      var n := |crumbs|;
      assert |t| - 1 == 2 * (n - 1) && (2 * (n - 1)) % 2 == 0 && (2 * (n - 1)) / 2 == n - 1;
    }
  }

  class BreadcrumbBar {
    var crumbs: seq<string>
    var layout: seq<Item>
    /** The indices sent with `crumb_clicked`, in order. */
    var emitted: seq<nat>

    predicate Valid()
      reads this
    {
      layout == Trail(crumbs) + [Stretch]
    }

    /** An empty trail: the row holds only its stretch. */
    constructor()
      ensures Valid() && crumbs == [] && layout == [Stretch] && emitted == []
    {
      crumbs := [];
      layout := [Stretch];
      emitted := [];
    }

    /** `set_crumbs`: every item but the trailing stretch is taken out,
        front first; then each crumb (after a separator, except the first)
        is inserted just before the stretch. */
    method SetCrumbs(newCrumbs: seq<string>)
      requires Valid()
      modifies this
      ensures Valid() && crumbs == newCrumbs && emitted == old(emitted)
    {
      var items := layout;
      while |items| > 1
        invariant 1 <= |items| && items[|items| - 1] == Stretch
        invariant emitted == old(emitted)
      {
        items := items[1..];
      }
      assert items == [Stretch];
      for i := 0 to |newCrumbs|
        invariant items == Built(newCrumbs, i) + [Stretch]
        invariant emitted == old(emitted)
      {
        if i > 0 {
          items := items[..|items| - 1] + [Separator] + [Stretch];
        }
        var entry := if i < |newCrumbs| - 1 then CrumbButton(newCrumbs[i], i) else CrumbLabel(newCrumbs[i]);
        items := items[..|items| - 1] + [entry] + [Stretch];
      }
      crumbs, layout := newCrumbs, items;
    }

    /** A click on the button at position `k` of the row announces that
        button's crumb index. */
    method Click(k: nat)
      requires k < |layout| && layout[k].CrumbButton?
      modifies this
      ensures emitted == old(emitted) + [old(layout)[k].index]
      ensures crumbs == old(crumbs) && layout == old(layout)
    {
      emitted := emitted + [layout[k].index];
    }
  }

  /** In a valid row, clicking crumb `i`'s button announces `i`, and the
      button shows that crumb's text. */
  lemma ButtonAnnouncesItsCrumb(b: BreadcrumbBar, i: nat)
    requires b.Valid() && i < |b.crumbs| - 1
    ensures b.layout[2 * i] == CrumbButton(b.crumbs[i], i)
  {
    TrailShape(b.crumbs);
  }
}
