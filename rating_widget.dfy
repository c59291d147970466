/** The 1-5 rating input: five round buttons, each setting the rating to
    its number; every button up to the rating is highlighted, the widget's
    accessible name reads the rating out, and a change is announced with
    the new value. */
module Rating {
  import opened Text

  const Buttons: nat := 5

  /** Which of the five buttons are highlighted for a rating: button `i`
      (numbered from 1) exactly when `i <= rating`. */
  function Highlights(rating: int): (h: seq<bool>)
    ensures |h| == Buttons
  {
    seq(Buttons, i => i + 1 <= rating)
  }

  function CountTrue(bs: seq<bool>): (n: nat)
    ensures n <= |bs|
  {
    if bs == [] then 0 else CountTrue(bs[..|bs| - 1]) + (if bs[|bs| - 1] then 1 else 0)
  }

  /** Exactly `rating` buttons are highlighted, none for a rating below 1
      and all five for one above 5. */
  lemma HighlightCount(rating: int)
    ensures CountTrue(Highlights(rating)) == if rating < 0 then 0 else if rating > 5 then 5 else rating
  {
    var h := Highlights(rating);
    forall k | 0 <= k <= Buttons
      ensures CountTrue(h[..k]) == if rating < 0 then 0 else if rating > k then k else rating
    {
      PrefixCount(h, rating, k);
    }
    assert h[..Buttons] == h;
  }

  lemma {:induction false} PrefixCount(h: seq<bool>, rating: int, k: nat)
    requires h == Highlights(rating) && k <= Buttons
    ensures CountTrue(h[..k]) == if rating < 0 then 0 else if rating > k then k else rating
  {
    if k > 0 {
      assert h[..k][..k - 1] == h[..k - 1];
      PrefixCount(h, rating, k - 1);
    }
  }

  /** The accessible name a chosen rating gives the widget. */
  function RatingName(value: int): string
  {
    "Rating: " + IntToString(value) + " out of 5"
  }

  class RatingWidget {
    const caption: string
    var rating: int
    var highlighted: seq<bool>
    var accessibleName: string
    /** The values sent with `rating_changed`, in order. */
    var emitted: seq<int>

    /** The rating is one a button can set (or 0 before any), the buttons
        show it, and every announced value is a button's. */
    predicate Valid()
      reads this
    {
      && 0 <= rating <= 5
      && highlighted == Highlights(rating)
      && forall k :: 0 <= k < |emitted| ==> 1 <= emitted[k] <= 5
    }

    /** The accessible name tells the current rating: the chosen one, or
        the initial "0 out of 5" once nothing is chosen. */
    predicate NameReports()
      reads this
    {
      accessibleName == RatingName(rating)
      || (rating == 0 && accessibleName == caption + " 0 out of 5")
    }

    /** A new widget: rating 0, nothing highlighted, nothing announced. */
    constructor(caption: string)
      ensures Valid() && NameReports()
      ensures this.caption == caption && rating == 0 && emitted == []
      ensures accessibleName == caption + " 0 out of 5"
    {
      this.caption := caption;
      rating := 0;
      highlighted := Highlights(0);
      accessibleName := caption + " 0 out of 5";
      emitted := [];
    }

    /** `_update_styles`: each button is restyled from the current rating. */
    method UpdateStyles()
      requires |highlighted| == Buttons
      modifies this
      ensures highlighted == Highlights(rating)
      ensures rating == old(rating) && accessibleName == old(accessibleName) && emitted == old(emitted)
    {
      var styles := highlighted;
      for i := 0 to Buttons
        invariant |styles| == Buttons
        invariant forall j :: 0 <= j < i ==> styles[j] == (j + 1 <= rating)
      {
        styles := styles[i := i + 1 <= rating];
      }
      highlighted := styles;
    }

    /** A click on button `value` (`_set_rating`): the rating becomes the
        button's number, the buttons are restyled, the name reads the new
        rating and the value is announced, even when it did not change. */
    method Click(value: int)
      requires Valid() && 1 <= value <= Buttons
      modifies this
      ensures Valid() && NameReports()
      ensures rating == value && accessibleName == RatingName(value)
      ensures emitted == old(emitted) + [value]
    {
      rating := value;
      UpdateStyles();
      accessibleName := RatingName(value);
      emitted := emitted + [value];
    }

    /** `get_rating`. */
    function GetRating(): (r: int)
      requires Valid()
      reads this
      ensures 0 <= r <= 5 && CountTrue(highlighted) == r
    {
      HighlightCount(rating);
      rating
    }

    /** `reset`, as written: the rating goes back to 0 and the buttons are
        restyled, but nothing is announced and the accessible name is left
        as it was. */
    method Reset()
      requires Valid()
      modifies this
      ensures Valid() && rating == 0 && CountTrue(highlighted) == 0
      ensures accessibleName == old(accessibleName) && emitted == old(emitted)
    {
      rating := 0;
      UpdateStyles();
      HighlightCount(0);
    }

    /** `reset` as evidently intended: the name goes back to the initial
        "0 out of 5" with the rest unchanged. */
    method ResetCorrected()
      requires Valid()
      modifies this
      ensures Valid() && NameReports() && rating == 0 && CountTrue(highlighted) == 0
      ensures accessibleName == caption + " 0 out of 5" && emitted == old(emitted)
    {
      rating := 0;
      UpdateStyles();
      HighlightCount(0);
      accessibleName := caption + " 0 out of 5";
    }
  }

  /** Rating 4, then reset: the buttons show 0 but a screen reader is still
      told "Rating: 4 out of 5". */
  method ResetLeavesStaleName(w: RatingWidget)
    requires w.Valid()
    modifies w
    ensures w.rating == 0 && w.accessibleName == "Rating: 4 out of 5"
    ensures !w.NameReports() <==> w.caption + " 0 out of 5" != "Rating: 4 out of 5"
  {
    w.Click(4);
    w.Reset();
    assert NatToString(4) == "4";
    assert NatToString(0) == "0";
    assert RatingName(0) != RatingName(4) by {
      assert RatingName(0)[8] == '0';
      assert RatingName(4)[8] == '4';
    }
  }
}
