/** The five-star picker: one rating, set by clicking a star, that fills
    every star up to it. */
module ChooseStarRating {
  import opened Common

  const StarCount := 5

  /** The fill rule of one star. */
  predicate Filled(rating: int, star: int)
  {
    rating >= star
  }

  /** The fill of stars 1 to 5 for a rating: entry `i` is star `i + 1`. */
  function Fill(rating: int): (filled: seq<bool>)
    ensures |filled| == StarCount
    ensures forall i :: 0 <= i < StarCount ==> (filled[i] <==> rating >= i + 1)
  {
    seq(StarCount, i requires 0 <= i < StarCount => Filled(rating, i + 1))
  }

  /** For a rating k in 0..5, the first k stars are filled and the others are not. */
  lemma FillIsPrefix(k: int)
    requires 0 <= k <= StarCount
    ensures Fill(k) == seq(k, _ => true) + seq(StarCount - k, _ => false)
  {
    var expected := seq(k, _ => true) + seq(StarCount - k, _ => false);
    assert forall i :: 0 <= i < StarCount ==> expected[i] == (i < k);
  }

  /** The button's accessible name: "1 star", "2 stars", and so on. */
  function StarLabel(star: nat): (text: string)
    ensures star == 1 ==> text == "1 star"
    ensures star != 1 ==> text == NatToString(star) + " stars"
  {
    NatToString(star) + " star" + (if star != 1 then "s" else "")
  }

  lemma StarLabels()
    ensures [StarLabel(1), StarLabel(2), StarLabel(3), StarLabel(4), StarLabel(5)]
            == ["1 star", "2 stars", "3 stars", "4 stars", "5 stars"]
  {
    assert DigitChar(1) == '1' && DigitChar(2) == '2' && DigitChar(3) == '3' && DigitChar(4) == '4' && DigitChar(5) == '5';
    assert NatToString(1) == "1" && NatToString(2) == "2" && NatToString(3) == "3";
    assert NatToString(4) == "4" && NatToString(5) == "5";
    assert StarLabel(1) == "1 star";
    assert StarLabel(2) == "2" + " stars" == "2 stars";
    assert StarLabel(3) == "3" + " stars" == "3 stars";
    assert StarLabel(4) == "4" + " stars" == "4 stars";
    assert StarLabel(5) == "5" + " stars" == "5 stars";
  }

  class Picker {
    var rating: int

    constructor ()
      ensures rating == 0
      ensures forall s :: 1 <= s <= StarCount ==> !Filled(rating, s)
    {
      rating := 0;
    }

    /** `handleClick(star)`: store the star, and pass it to `onChange` when
        there is one; `notified` is that call. Clicking the current star again
        keeps it: there is no way back to 0. */
    method HandleClick(star: int, hasOnChange: bool) returns (notified: Option<int>)
      modifies this
      ensures rating == star
      ensures notified == if hasOnChange then Some(star) else None
      ensures forall s :: 1 <= s <= StarCount ==> (Filled(rating, s) <==> s <= star)
      ensures old(rating) == star ==> rating == old(rating)
    {
      rating := star;
      notified := None;
      if hasOnChange {
        notified := Some(star);
      }
    }
  }
}
