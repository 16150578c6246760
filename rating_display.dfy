/** The star rating widget (`src/components/reviews/rating-display.tsx`): full, half and
    empty star counts from a rating, and the optional "(n reviews)" label. */
module RatingDisplay {
  import opened Options
  import opened Text

  /** `Math.trunc`: rounds toward zero. */
  function Trunc(x: real): int
  {
    if x >= 0.0 then x.Floor else -((-x).Floor)
  }

  /** `x % 1` in JavaScript: the remainder after truncation, with the sign of `x`. */
  function RemOne(x: real): (r: real)
    ensures x >= 0.0 ==> 0.0 <= r < 1.0 && r == x - x.Floor as real
    ensures x < 0.0 ==> -1.0 < r <= 0.0
  {
    x - Trunc(x) as real
  }

  datatype Stars = Stars(full: int, half: int, empty: int)

  /** `fullStars = Math.floor(rating)`, `halfStar = rating % 1 >= 0.5 ? 1 : 0`,
      `emptyStars = 5 - fullStars - halfStar`. For a non-negative rating the stars shown
      (a half star counting 0.5) are the rating rounded down to a multiple of 0.5. */
  function StarCounts(rating: real): (s: Stars)
    ensures s.full + s.half + s.empty == 5
    ensures s.half == 0 || s.half == 1
    ensures rating >= 0.0 ==>
      var shown := s.full as real + 0.5 * s.half as real;
      shown <= rating < shown + 0.5
    ensures s.full as real <= rating < s.full as real + 1.0
  {
    var full := rating.Floor;
    var half := if RemOne(rating) >= 0.5 then 1 else 0;
    Stars(full, half, 5 - full - half)
  }

  /** For a rating between 0 and 5 every count is non-negative, so all three star runs can
      be drawn, five stars in all. */
  lemma StarsForRatingInRange(rating: real)
    requires 0.0 <= rating <= 5.0
    ensures var s := StarCounts(rating);
      0 <= s.full <= 5 && 0 <= s.empty <= 5 && s.full + s.half + s.empty == 5
  {
  }

  /** The two ends of the scale: 5 gives five full stars, 0 gives five empty ones. */
  lemma StarsAtEnds()
    ensures StarCounts(5.0) == Stars(5, 0, 0)
    ensures StarCounts(0.0) == Stars(0, 0, 5)
  {
  }

  datatype Glyph = FullStar | HalfStar | EmptyStar

  function Repeat(g: Glyph, n: nat): (r: seq<Glyph>)
    ensures |r| == n && forall i :: 0 <= i < n ==> r[i] == g
  {
    if n == 0 then [] else Repeat(g, n - 1) + [g]
  }

  /** The row of star icons. `[...Array(n)]` throws a RangeError for a negative `n`,
      which happens for a rating below 0 or above 5 (`None`). */
  function RenderStars(rating: real): (r: Option<seq<Glyph>>)
    ensures r.Some? <==> StarCounts(rating).full >= 0 && StarCounts(rating).empty >= 0
    ensures r.Some? ==> |r.value| == 5
  {
    var s := StarCounts(rating);
    if s.full < 0 || s.empty < 0 then None
    else Some(Repeat(FullStar, s.full) + (if s.half == 1 then [HalfStar] else []) + Repeat(EmptyStar, s.empty))
  }

  /** Exactly the ratings in [0, 5.5) render (a rating just above 5 draws five full stars),
      with the full stars first, then at most one half star, then the empty stars. */
  lemma RenderStarsIff(rating: real)
    ensures RenderStars(rating).Some? <==> 0.0 <= rating < 5.5
    ensures RenderStars(rating).Some? ==>
      var g, s := RenderStars(rating).value, StarCounts(rating);
      && (forall i :: 0 <= i < s.full ==> g[i] == FullStar)
      && (s.half == 1 ==> g[s.full] == HalfStar)
      && (forall i :: s.full + s.half <= i < 5 ==> g[i] == EmptyStar)
  {
    var s := StarCounts(rating);
    if rating >= 5.0 && s.full == 5 {
      assert RemOne(rating) == rating - 5.0;
    }
  }

  /** `({reviewCount} review{reviewCount !== 1 ? 's' : ''})`, shown only when a count is given. */
  function ReviewCountLabel(reviewCount: Option<int>): (text: Option<string>)
    ensures text.Some? <==> reviewCount.Some?
  {
    match reviewCount
    case None => None
    case Some(n) => Some("(" + IntToString(n) + " review" + (if n != 1 then "s" else "") + ")")
  }

  /** The label says "review" for exactly one review and "reviews" otherwise, and the count
      in it reads back as the given number. */
  lemma ReviewCountLabelText(n: int)
    ensures var text := ReviewCountLabel(Some(n)).value;
      && (n == 1 <==> text[|text| - 8..] == " review)")
      && ParseInt(text[1..]) == Some(n)
  {
    var text := ReviewCountLabel(Some(n)).value;
    var digits := IntToString(n);
    var tail := " review" + (if n != 1 then "s" else "") + ")";
    assert text == "(" + digits + tail;
    assert text[1..] == digits + tail;
    if n != 1 {
      assert text[|text| - 8..] == "reviews)";
    }
    ParseIntStopsAtSpace(n, tail);
  }

  /** `parseInt` reads the number at the front of `String(n) + t` when `t` starts with a space. */
  lemma ParseIntStopsAtSpace(n: int, t: string)
    requires |t| > 0 && t[0] == ' '
    ensures ParseInt(IntToString(n) + t) == Some(n)
  {
    var m: nat := if n < 0 then -n else n;
    var digits := NatToString(m);
    var body := digits + t;
    DigitPrefixThenSpace(digits, t);
    assert body[..|digits|] == digits;
    assert DigitsValue(body[..DigitPrefixLength(body)]) == m;
    var s := IntToString(n) + t;
    if n < 0 {
      assert s == "-" + body;
      assert s[0] == '-' && !IsSpace(s[0]);
      assert TrimStart(s) == s;
      assert Unsigned(s) == body;
    } else {
      assert s == body;
      assert !IsSpace(s[0]) && IsDigit(s[0]);
      assert TrimStart(s) == s;
      assert Unsigned(s) == s;
    }
  }

  lemma {:induction false} DigitPrefixThenSpace(ds: string, t: string)
    requires AllDigits(ds) && |t| > 0 && t[0] == ' '
    ensures DigitPrefixLength(ds + t) == |ds|
  {
    if ds == [] {
      assert ds + t == t;
    } else {
      assert (ds + t)[1..] == ds[1..] + t;
      DigitPrefixThenSpace(ds[1..], t);
    }
  }
}
