/** The review section of a listing page (`src/components/reviews/review-list.tsx`): which
    reviews are shown, when the "Show all" button appears, and the "Leave a Review" form. */
module ReviewList {
  import opened Listings

  /** How many reviews are shown before "Show all" is clicked. */
  const PreviewLength := 3

  /** `reviewSchema`: a rating from 1 to 5 and a comment of at least 10 characters. */
  predicate ReviewValid(rating: int, comment: string)
  {
    1 <= rating <= 5 && |comment| >= 10
  }

  /** `showAll ? reviews : reviews.slice(0, 3)`. */
  function DisplayedReviews(reviews: seq<Review>, showAll: bool): (r: seq<Review>)
    ensures |r| <= |reviews| && r == reviews[..|r|]
    ensures showAll ==> r == reviews
    ensures !showAll ==> |r| == if |reviews| < PreviewLength then |reviews| else PreviewLength
  {
    if showAll || |reviews| <= PreviewLength then reviews else reviews[..PreviewLength]
  }

  /** `reviews.length > 3 && !showAll`. */
  predicate ShowAllOffered(reviews: seq<Review>, showAll: bool)
  {
    |reviews| > PreviewLength && !showAll
  }

  /** The heading `{reviews.length} Reviews` counts the whole list. */
  function HeadingCount(reviews: seq<Review>): (n: nat)
    ensures forall showAll: bool :: |DisplayedReviews(reviews, showAll)| <= n
    ensures n == |DisplayedReviews(reviews, true)|
  {
    |reviews|
  }

  /** The "Show all" button is offered exactly when some review is hidden. */
  lemma ShowAllOfferedIffHidden(reviews: seq<Review>, showAll: bool)
    ensures ShowAllOffered(reviews, showAll) <==> DisplayedReviews(reviews, showAll) != reviews
  {
    if ShowAllOffered(reviews, showAll) {
      assert |DisplayedReviews(reviews, showAll)| == PreviewLength < |reviews|;
    }
  }

  /** The "no reviews yet" message appears exactly when the list is empty. */
  lemma NoReviewsMessage(reviews: seq<Review>, showAll: bool)
    ensures |DisplayedReviews(reviews, showAll)| == 0 <==> |reviews| == 0
  {
  }

  /** Star `star` (1..5) is drawn filled when the pointer is on it or a later star, or the
      chosen rating reaches it. */
  predicate StarFilled(star: int, hoveredRating: int, rating: int)
  {
    hoveredRating >= star || rating >= star
  }

  /** The filled stars always form a run from the first star: exactly the stars up to the
      larger of the hovered and the chosen rating. */
  lemma FilledStarsFormPrefix(hoveredRating: int, rating: int, star: int)
    requires 1 <= star <= 5
    ensures StarFilled(star, hoveredRating, rating) <==>
      star <= if hoveredRating < rating then rating else hoveredRating
  {
  }

  /** The default rating 0 fails the schema whatever the comment, so a review can only be
      submitted after a star has been clicked. */
  lemma DefaultRatingInvalid(comment: string)
    ensures !ReviewValid(0, comment)
    ensures forall star :: 1 <= star <= 5 ==> (ReviewValid(star, comment) <==> |comment| >= 10)
  {
  }

  /** The component's state: the `showAll` flag, the hovered star and the form's two fields. */
  class ReviewPanel {
    var showAll: bool
    var hoveredRating: int
    var rating: int
    var comment: string

    /** Ratings and hovered star stay within 0..5: they start at 0 and only a star click or
        hover in 1..5 changes them. */
    ghost predicate Valid()
      reads this
    {
      0 <= rating <= 5 && 0 <= hoveredRating <= 5
    }

    constructor()
      ensures Valid()
      ensures !showAll && hoveredRating == 0 && rating == 0 && comment == ""
    {
      showAll := false;
      hoveredRating := 0;
      rating := 0;
      comment := "";
    }

    /** The "Show all" button: `setShowAll(true)`. */
    method ShowAll()
      requires Valid()
      modifies this
      ensures Valid() && showAll
      ensures hoveredRating == old(hoveredRating) && rating == old(rating) && comment == old(comment)
    {
      showAll := true;
    }

    /** `onMouseEnter` on a star. */
    method HoverStar(star: int)
      requires Valid() && 1 <= star <= 5
      modifies this
      ensures Valid() && hoveredRating == star
      ensures showAll == old(showAll) && rating == old(rating) && comment == old(comment)
    {
      hoveredRating := star;
    }

    /** `onMouseLeave` on the row of stars. */
    method LeaveStars()
      requires Valid()
      modifies this
      ensures Valid() && hoveredRating == 0
      ensures showAll == old(showAll) && rating == old(rating) && comment == old(comment)
    {
      hoveredRating := 0;
    }

    /** `onClick` on a star: `field.onChange(star)`. */
    method ClickStar(star: int)
      requires Valid() && 1 <= star <= 5
      modifies this
      ensures Valid() && rating == star
      ensures showAll == old(showAll) && hoveredRating == old(hoveredRating) && comment == old(comment)
    {
      rating := star;
    }

    /** Typing in the comment box. */
    method EditComment(text: string)
      requires Valid()
      modifies this
      ensures Valid() && comment == text
      ensures showAll == old(showAll) && hoveredRating == old(hoveredRating) && rating == old(rating)
    {
      comment := text;
    }

    /** `form.handleSubmit(onSubmit)`: a valid form is accepted and reset to its defaults;
        an invalid one is refused and left as it is. The review itself is not stored. */
    method Submit() returns (accepted: bool)
      requires Valid()
      modifies this
      ensures Valid()
      ensures accepted <==> ReviewValid(old(rating), old(comment))
      ensures accepted ==> rating == 0 && comment == ""
      ensures !accepted ==> rating == old(rating) && comment == old(comment)
      ensures showAll == old(showAll) && hoveredRating == old(hoveredRating)
    {
      accepted := ReviewValid(rating, comment);
      if accepted {
        rating := 0;
        comment := "";
      }
    }
  }

  /** `showAll` only ever goes from false to true, and submitting twice in a row never
      accepts twice: the reset puts the rating back to the invalid default. */
  method Session(reviews: seq<Review>, text: string, star: int) returns (shown: seq<Review>, first: bool, second: bool)
    requires 1 <= star <= 5
    ensures shown == reviews
    ensures first <==> |text| >= 10
    ensures !second
  {
    var panel := new ReviewPanel();
    panel.ClickStar(star);
    panel.EditComment(text);
    first := panel.Submit();
    second := panel.Submit();
    panel.ShowAll();
    shown := DisplayedReviews(reviews, panel.showAll);
  }
}
