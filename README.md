# CampusConnect listing and profile logic in Dafny

CampusConnect is a student-housing and mess (meal service) marketplace. Students search
rental properties and mess listings; owners list properties and messes and watch their
portfolio on a dashboard. This project models the deterministic logic in that front end:

- the search pipelines of the property and mess listing pages: filter predicates, then a
  stable sort chosen by a sort key;
- the property filter panel's handlers, as functional updates of the filter record;
- the owner dashboard's portfolio totals and occupancy rate;
- the star rating widget and the review section (truncated list, "Show all", review form);
- the profile pages:
  - role classification from the two profile collections (`students`, `propertyOwners`);
  - single-field profile updates;
  - e-mail and Google sign-up, which write at most one profile document;
- the validation schemas and default values of the "add property" and "add mess" forms,
  including the 7-day by 3-meal menu.

Modules, one per source file, plus shared ones:

- `Options`, `Seqs` (`filter`, remove-all), `Text` (ASCII lower-casing, `includes`,
  `parseInt`, `String(n)`), `Listings` (the records of `src/lib/types.ts`);
- `StableSort`: stable sort by key. Its result is characterised by order plus per-key
  stability, so any stable sort gives the same output;
- `JsNumber`: the JavaScript number arithmetic the comparators use (`x || d`, subtraction
  with infinities and NaN, the sign a comparator returns).

Page and component modules:

- `PropertySearch`, `MessSearch`, `PropertyFilterPanel`, `OwnerDashboard`;
- `RatingDisplay`, `ReviewList`;
- `Profiles` (the store class), `ProfileEdit`, `Signup`;
- `AddPropertyForm`, `AddMessForm`.

Pure code is modelled as functions and lemmas. Code that updates React state or the
document store is modelled with classes:

- `ReviewList.ReviewPanel` holds `showAll`, the hovered star and the form fields;
- `ProfileEdit.EditProfilePage` holds the role, the form fields and the requested route;
- `Profiles.ProfileStore` holds the two profile collections as maps keyed by uid.

Calls to the authentication service and the document store become parameters:

- the uid that account creation returns, or `None` when it throws;
- the account the Google pop-up returns;
- whether the store is available;
- whether the Google sign-up's profile reads go through;
- whether a write goes through.

## Model

| member | source | states |
|---|---|---|
| `Seqs.Filter` | src/app/properties/page.tsx:37 | `filter` keeps exactly the elements that pass and nothing else, and never lengthens the list |
| `Seqs.FilterMultiset` | src/app/properties/page.tsx:37 | each passing element is kept as often as it occurs in the input; failing elements do not occur |
| `Seqs.FilterKeepsAll` | src/app/properties/page.tsx:37-51 | a filter that every element passes returns the list unchanged, order included |
| `Seqs.FilterAppend` | src/app/properties/page.tsx:37 | filtering distributes over concatenation |
| `Seqs.RemoveAll` | src/components/properties/property-search-filters.tsx:36 | `filter(f => f !== x)` removes every copy of `x`, keeps every other element's multiplicity, and changes nothing when `x` is absent |
| `Seqs.RemoveAllAppended` | src/components/properties/property-search-filters.tsx:35-37 | appending an absent element and removing it again gives the original list |
| `Seqs.RemoveAllConcat` | src/app/owner/add-property/page.tsx:184-188 | removing an element from a concatenation removes it from each part |
| `Text.Lower` | src/app/properties/page.tsx:38-42 | `toLowerCase` on ASCII: same length, upper-case letters mapped, nothing else changed |
| `Text.IncludesIff` | src/app/properties/page.tsx:39-42 | `includes` holds exactly when the query occurs at some position of the text |
| `Text.Includes` | src/app/properties/page.tsx:40-42 | `includes` scanned left to right: the query is a prefix here or occurs further on; characterised by `Text.IncludesIff` |
| `Text.IncludesEmpty` | src/app/properties/page.tsx:38-42 | the empty query is included in every text |
| `Text.NatToString` | src/components/reviews/rating-display.tsx:29 | the decimal rendering is a non-empty digit string whose value is the number |
| `Text.ParseInt` | src/components/properties/property-search-filters.tsx:47 | `parseInt(s, 10)` is NaN exactly when no digit follows the skipped white space and the optional sign |
| `Text.ParseIntOfIntToString` | src/components/properties/property-search-filters.tsx:47 | `parseInt` reads back every integer that `String` writes |
| `StableSort.KeyOrder` | src/app/properties/page.tsx:53-66 | the order of two keys: equal keys tie, otherwise the smaller goes first |
| `StableSort.KeyLeTotalOrder` | src/app/properties/page.tsx:53-66 | the key order is reflexive, antisymmetric, transitive and total |
| `StableSort.Insert` | src/app/properties/page.tsx:53 | insertion adds the element once and keeps every other element |
| `StableSort.Sort` | src/app/properties/page.tsx:53 | `[...filtered].sort(cmp)` returns a permutation of its input that is ordered by key |
| `StableSort.InsertSorted` | src/app/properties/page.tsx:53 | inserting into an ordered list keeps it ordered |
| `StableSort.SortedCons` | src/app/properties/page.tsx:53 | an element whose key is no larger than any key of an ordered list can go in front of it |
| `StableSort.InsertAfterFirst` | src/app/properties/page.tsx:53 | an element that goes after the head of an ordered list is inserted among elements with keys no smaller than the head's |
| `StableSort.InsertClass` | src/app/properties/page.tsx:53 | inserting at the front-most admissible place keeps the order of equal keys |
| `StableSort.SortStable` | src/app/properties/page.tsx:53 | elements with the same key appear in the output in their input order |
| `StableSort.KeyClassMembers` | src/app/properties/page.tsx:53 | a key class holds exactly the input elements with that key |
| `StableSort.SortedClassesDetermine` | src/app/properties/page.tsx:53 | two ordered lists that agree on every key class are equal |
| `StableSort.SortCharacterized` | src/app/properties/page.tsx:53 | a list is the stable sort of the input exactly when it is ordered and keeps every key class's order |
| `StableSort.SortedPermutationUnique` | src/app/properties/page.tsx:53 | without ties, two ordered permutations of the same collection are equal |
| `StableSort.SortNoTies` | src/app/properties/page.tsx:53 | without ties, every ordered permutation of the input is its stable sort |
| `StableSort.Reverse` | src/app/properties/page.tsx:55-58 | the reversed list holds the same elements, read from the end |
| `JsNumber.Sub` | src/app/properties/page.tsx:56 | JavaScript subtraction: finite numbers subtract exactly; infinities and NaN follow IEEE rules |
| `JsNumber.OrReal` | src/app/properties/page.tsx:60 | `x || d` on an optional rating: a missing or zero value gives the default |
| `JsNumber.OrInt` | src/app/properties/page.tsx:64 | `x || d` on an optional count: a missing or zero value gives the default |
| `JsNumber.AscendingDifference` | src/app/properties/page.tsx:56 | the sign of `a - b` orders `a` before `b` exactly when `a < b`, with a tie when they are equal |
| `JsNumber.DescendingDifference` | src/app/properties/page.tsx:58 | the sign of `b - a` orders `a` before `b` exactly when `a > b`, with a tie when they are equal |
| `PropertySearch.InitialFilters` | src/app/properties/page.tsx:24-30 | the page starts at distance 5, room type `any`, budget 0..50000, no facilities, mess not required |
| `PropertySearch.MatchesSearch` | src/app/properties/page.tsx:38-42 | the lower-cased query occurs in the lower-cased name, college name or address |
| `PropertySearch.MatchesDistance` | src/app/properties/page.tsx:44 | the distance from college is at most the filter distance, inclusive |
| `PropertySearch.MatchesRoomType` | src/app/properties/page.tsx:45 | `any` passes every property; any other value must equal the room type's name |
| `PropertySearch.MatchesBudget` | src/app/properties/page.tsx:46 | the rent lies within both bounds, inclusive; a NaN bound fails |
| `PropertySearch.EveryIncluded` | src/app/properties/page.tsx:47 | `every` over the selected facilities, each looked up with `includes` |
| `PropertySearch.MatchesFacilities` | src/app/properties/page.tsx:47 | every selected facility is among the property's facilities |
| `PropertySearch.MatchesMess` | src/app/properties/page.tsx:48 | without the mess switch every property passes; with it, only one whose mess details say available |
| `PropertySearch.Matches` | src/app/properties/page.tsx:50 | the conjunction of the six checks |
| `PropertySearch.EveryIncludedIff` | src/app/properties/page.tsx:47 | the facility filter is conjunctive: every selected facility must be offered, and an empty selection keeps everything |
| `PropertySearch.FilterProperties` | src/app/properties/page.tsx:37-51 | a property is kept exactly when it passes all six predicates (search, distance, room type, inclusive budget, facilities, mess), with its multiplicity |
| `PropertySearch.PropertyKey` | src/app/properties/page.tsx:54-65 | the key each sort option compares: rent, negated rent, negated rating (missing = 0), distance, negated review count (missing = 0) |
| `PropertySearch.Compare` | src/app/properties/page.tsx:53-66 | the comparator, case by case as the `switch` writes it, over JavaScript numbers; tied to `PropertyKey` by `CompareMatchesKey` |
| `PropertySearch.CompareMatchesKey` | src/app/properties/page.tsx:53-66 | for every sort option, the comparator's sign orders each pair as the sort key does |
| `PropertySearch.SearchProperties` | src/app/properties/page.tsx:36-69 | the page's list is a permutation of the filtered properties, ordered by the chosen key |
| `PropertySearch.SearchPropertiesMembers` | src/app/properties/page.tsx:37-51 | a property is shown exactly when it is in the collection and passes all six predicates |
| `PropertySearch.SearchPropertiesStable` | src/app/properties/page.tsx:53-66 | properties with equal sort keys keep their collection order |
| `PropertySearch.SearchPropertiesCharacterized` | src/app/properties/page.tsx:53-66 | the result is the one list that is ordered and tie-stable |
| `PropertySearch.SearchPropertiesOrder` | src/app/properties/page.tsx:54-65 | ordering in source terms: rent ascending or descending, rating descending (missing = 0), distance ascending, or review count descending (missing = 0) for any other option |
| `PropertySearch.InitialFiltersKeepAll` | src/app/properties/page.tsx:24-51 | with the initial filters and an empty query, a collection within 5 km and the 0..50000 budget is kept whole and in order |
| `PropertySearch.SearchQueryCases` | src/app/properties/page.tsx:38-42 | an empty query matches every property, and the query's letter case never matters |
| `PropertySearch.RentDescReversesRentAsc` | src/app/properties/page.tsx:54-58 | when no two filtered properties share a rent, `rent-desc` gives exactly the reverse of `rent-asc` |
| `PropertySearch.DistinctRentsNoTies` | src/app/properties/page.tsx:57-58 | distinct rents give distinct `rent-desc` keys |
| `PropertySearch.ReverseOfAscendingIsDescending` | src/app/properties/page.tsx:55-58 | a list in ascending rent order, read backwards, is in descending rent order |
| `PropertySearch.SampleMatches` | src/app/properties/page.tsx:37-51 | with wildcard room type, facilities and mess filters, a nearby listing passes exactly when its rent is within the budget |
| `PropertySearch.BudgetExampleFilter` | src/app/properties/page.tsx:46 | rents 5000, 12000 and 8000 under the budget 0..10000 keep the first and the third |
| `PropertySearch.BudgetExamplePasses` | src/app/properties/page.tsx:46 | under the budget 0..10000 the 5000 and 8000 listings pass and the 12000 one does not |
| `PropertySearch.BudgetExampleKeys` | src/app/properties/page.tsx:55-56 | the rents 5000 and 8000 are in `rent-asc` order and do not tie |
| `PropertySearch.BudgetThenRentAscExample` | src/app/properties/page.tsx:46-56 | rents 5000, 12000, 8000 with budget 0..10000 under `rent-asc` give the 5000 and 8000 listings in that order |
| `PropertySearch.PopularityExample` | src/app/properties/page.tsx:63-64 | review counts 10, 3, 7 under the default key come out as 10, 7, 3 |
| `PropertySearch.PopularityExampleKeepsAll` | src/app/properties/page.tsx:24-51 | the initial filters keep the three sample listings whole and in order |
| `PropertySearch.PopularityExampleKeys` | src/app/properties/page.tsx:63-64 | the review counts 10, 7, 3 are in popularity order and no two tie |
| `MessSearch.InitialMessFilters` | src/app/mess/page.tsx:24-27 | the page starts with a price limit of 5000 and food type `any` |
| `MessSearch.InitialMessFiltersKeep` | src/app/mess/page.tsx:24-47 | with the initial filters and an empty query a listing is kept exactly when it has an image and a monthly price, if any, of at most 5000 |
| `MessSearch.HasImage` | src/app/mess/page.tsx:35 | a listing needs at least one image id |
| `MessSearch.MatchesSearch` | src/app/mess/page.tsx:37-40 | the lower-cased query occurs in the lower-cased name or address; the college name is not searched |
| `MessSearch.MatchesPrice` | src/app/mess/page.tsx:42-43 | a listing without a monthly price passes; otherwise the price is at most the limit |
| `MessSearch.MatchesFoodType` | src/app/mess/page.tsx:44 | `any` passes every listing; any other value must equal the food type's name |
| `MessSearch.Matches` | src/app/mess/page.tsx:46 | the conjunction of the four checks |
| `MessSearch.FilterMess` | src/app/mess/page.tsx:34-47 | a listing is kept exactly when it has an image, matches the search on name or address, passes the price limit and the food type |
| `MessSearch.HasMonthlyPrice` | src/app/mess/page.tsx:52 | a monthly price that is present and non-zero, so truthy in `monthly || x` |
| `MessSearch.MessKey` | src/app/mess/page.tsx:50-59 | the key each sort option compares: monthly price with unpriced listings last, negated `monthly || 0`, negated rating, negated review count |
| `MessSearch.Compare` | src/app/mess/page.tsx:49-60 | the comparator, case by case as the `switch` writes it, with `|| Infinity` and `|| 0`; tied to `MessKey` by `CompareMatchesKey` |
| `MessSearch.CompareMatchesKey` | src/app/mess/page.tsx:49-60 | each comparator orders every pair as its key does: `monthly \|\| Infinity` puts unpriced listings last, `\|\| 0` counts missing values as 0 |
| `MessSearch.PriceAscCompare` | src/app/mess/page.tsx:51-52 | `(a.monthly \|\| Infinity) - (b.monthly \|\| Infinity)` orders priced listings by price, puts priced before unpriced, and ties two unpriced ones through NaN |
| `MessSearch.SearchMess` | src/app/mess/page.tsx:33-63 | the page's list is a permutation of the filtered listings, ordered by the chosen key |
| `MessSearch.SearchMessMembers` | src/app/mess/page.tsx:34-47 | a listing is shown exactly when it passes all four checks; no listing without an image is shown; a listing without a monthly price always passes the price limit |
| `MessSearch.SearchMessStable` | src/app/mess/page.tsx:49-60 | listings with equal keys keep their collection order |
| `MessSearch.SearchMessCharacterized` | src/app/mess/page.tsx:49-60 | the result is the one list that is ordered and tie-stable |
| `MessSearch.PriceAscOrder` | src/app/mess/page.tsx:51-52 | under `price-asc` priced listings come first in non-decreasing price, listings with a missing or zero price come last and keep their order |
| `MessSearch.SearchMessOrder` | src/app/mess/page.tsx:53-58 | `price-desc` is non-increasing in price (missing = 0), `rating-desc` in rating, and any other option in review count |
| `PropertyFilterPanel.SliderChange` | src/components/properties/property-search-filters.tsx:29-31 | the slider sets only the distance, always to a mark of 0..5 in steps of 0.5 |
| `PropertyFilterPanel.FacilityChange` | src/components/properties/property-search-filters.tsx:33-40 | toggling removes every copy of a selected facility, appends an unselected one at the end, and changes no other field |
| `PropertyFilterPanel.FacilityToggleTwice` | src/components/properties/property-search-filters.tsx:33-40 | toggling an unselected facility twice restores the record |
| `PropertyFilterPanel.RoomTypeChange` | src/components/properties/property-search-filters.tsx:42-44 | choosing a room type changes only that field |
| `PropertyFilterPanel.RoomTypeChoice` | src/app/properties/page.tsx:45 | after choosing `any` every property passes the room-type check; after choosing a type, exactly the properties of that type pass |
| `PropertyFilterPanel.BudgetInputValue` | src/components/properties/property-search-filters.tsx:47 | an empty input gives 0 for min and 50000 for max; otherwise the bound is `parseInt` of the input, NaN when it has no digits |
| `PropertyFilterPanel.BudgetChange` | src/components/properties/property-search-filters.tsx:46-49 | a budget edit sets only the edited bound |
| `PropertyFilterPanel.BudgetTypedNumber` | src/components/properties/property-search-filters.tsx:46-49 | typing the decimal form of an integer sets the bound to exactly that integer |
| `PropertyFilterPanel.NaNBoundExcludesAll` | src/app/properties/page.tsx:46 | a NaN bound rejects every property |
| `PropertyFilterPanel.MessChange` | src/components/properties/property-search-filters.tsx:51-53 | the mess checkbox changes only `messAvailable` |
| `PropertyFilterPanel.ClearFilters` | src/components/properties/property-search-filters.tsx:55-64 | clearing yields exactly the page's initial filter record |
| `PropertyFilterPanel.ApplyKeepsInvariant` | src/components/properties/property-search-filters.tsx:29-64 | every handler keeps the distance on the slider grid and the facility list free of duplicates |
| `PropertyFilterPanel.SessionKeepsInvariant` | src/components/properties/property-search-filters.tsx:29-83 | any sequence of panel actions keeps that invariant |
| `PropertyFilterPanel.InitialFiltersInvariant` | src/app/properties/page.tsx:24-30 | the initial record satisfies the panel invariant |
| `OwnerDashboard.PortfolioTotals` | src/app/dashboard/owner/page.tsx:45-56 | a missing list gives all zeros; otherwise the count is the length, the three totals are the sums of rent, capacity and availability, and occupancy is computed from them |
| `OwnerDashboard.Occupancy` | src/app/dashboard/owner/page.tsx:53 | 0 without capacity; otherwise the filled share of capacity times 100, within 0..100 when availability is within capacity, 100 exactly when nothing is available and 0 exactly when everything is |
| `OwnerDashboard.RowStatus` | src/app/dashboard/owner/page.tsx:221-222 | a row's badge reads "Available" when some place is free and "Full" otherwise |
| `OwnerDashboard.FilledBeds` | src/app/dashboard/owner/page.tsx:118 | one property's share of the headline's filled beds, capacity minus availability |
| `OwnerDashboard.FilledBedsAddUp` | src/app/dashboard/owner/page.tsx:118 | the headline "beds filled" equals the sum of the per-row filled beds |
| `OwnerDashboard.ConsistentSums` | src/app/dashboard/owner/page.tsx:50-52 | when each availability is within its capacity, the total availability is within the total capacity, and it is 0 exactly when every row's is |
| `OwnerDashboard.OccupancyIsPercentage` | src/app/dashboard/owner/page.tsx:53 | with every availability within its capacity, occupancy lies in 0..100 |
| `OwnerDashboard.FullPortfolio` | src/app/dashboard/owner/page.tsx:221-222 | with some capacity, occupancy is 100 exactly when every row's badge reads "Full" |
| `RatingDisplay.RemOne` | src/components/reviews/rating-display.tsx:13 | JavaScript's `x % 1` is the fractional part for non-negative `x` and non-positive for negative `x` |
| `RatingDisplay.StarCounts` | src/components/reviews/rating-display.tsx:12-14 | the three counts sum to 5, the half count is 0 or 1, the full count is the floor, and for a non-negative rating the stars shown are the rating rounded down to a half |
| `RatingDisplay.StarsForRatingInRange` | src/components/reviews/rating-display.tsx:12-25 | for a rating in 0..5 every count is non-negative |
| `RatingDisplay.StarsAtEnds` | src/components/reviews/rating-display.tsx:12-14 | rating 5 gives five full stars, rating 0 five empty ones |
| `RatingDisplay.RenderStars` | src/components/reviews/rating-display.tsx:19-25 | the star row renders (five icons) exactly when neither the full nor the empty count is negative |
| `RatingDisplay.RenderStarsIff` | src/components/reviews/rating-display.tsx:12-25 | exactly the ratings in [0, 5.5) render, full stars first, then at most one half star, then empty stars |
| `RatingDisplay.ReviewCountLabel` | src/components/reviews/rating-display.tsx:27-31 | the label is shown exactly when a review count is given |
| `RatingDisplay.ReviewCountLabelText` | src/components/reviews/rating-display.tsx:29 | the label says "review" exactly for a count of 1 and "reviews" otherwise, and the count in it reads back as the given number |
| `RatingDisplay.ParseIntStopsAtSpace` | src/components/reviews/rating-display.tsx:29 | a rendered integer followed by a space reads back as that integer |
| `ReviewList.DisplayedReviews` | src/components/reviews/review-list.tsx:29 | the shown reviews are a prefix of the list: all of it when `showAll`, otherwise min(3, n) |
| `ReviewList.ReviewValid` | src/components/reviews/review-list.tsx:16-19 | `reviewSchema`: a rating of 1 to 5 and a comment of at least 10 characters |
| `ReviewList.ShowAllOffered` | src/components/reviews/review-list.tsx:61 | the "Show all" button is rendered when there are more than 3 reviews and the full list is not shown |
| `ReviewList.StarFilled` | src/components/reviews/review-list.tsx:88 | a star is filled when the hovered star or the chosen rating reaches it |
| `ReviewList.HeadingCount` | src/components/reviews/review-list.tsx:51 | the heading counts the full list, never fewer than are shown |
| `ReviewList.ShowAllOfferedIffHidden` | src/components/reviews/review-list.tsx:61-65 | the "Show all" button appears exactly when some review is hidden, that is when n > 3 and not `showAll` |
| `ReviewList.NoReviewsMessage` | src/components/reviews/review-list.tsx:52-60 | the "no reviews yet" message appears exactly when the list is empty |
| `ReviewList.FilledStarsFormPrefix` | src/components/reviews/review-list.tsx:84-94 | the filled stars are exactly those up to the larger of the hovered star and the chosen rating |
| `ReviewList.DefaultRatingInvalid` | src/components/reviews/review-list.tsx:16-37 | the default rating 0 fails the schema; with a star chosen, validity is the comment length of at least 10 |
| `ReviewList.ReviewPanel.constructor` | src/components/reviews/review-list.tsx:28-38 | `showAll` starts false, the hovered star and the rating 0, the comment empty |
| `ReviewList.ReviewPanel.ShowAll` | src/components/reviews/review-list.tsx:62 | the button sets `showAll` and nothing else |
| `ReviewList.ReviewPanel.HoverStar` | src/components/reviews/review-list.tsx:92 | hovering a star records it and changes nothing else |
| `ReviewList.ReviewPanel.LeaveStars` | src/components/reviews/review-list.tsx:83 | leaving the row clears the hovered star |
| `ReviewList.ReviewPanel.ClickStar` | src/components/reviews/review-list.tsx:93 | a star click sets the rating to that star, in 1..5 |
| `ReviewList.ReviewPanel.EditComment` | src/components/reviews/review-list.tsx:109 | typing sets the comment only |
| `ReviewList.ReviewPanel.Submit` | src/components/reviews/review-list.tsx:42-46 | a form is accepted exactly when it passes the schema; an accepted form is reset to rating 0 and an empty comment; a refused one is unchanged |
| `ReviewList.Session` | src/components/reviews/review-list.tsx:28-46 | after a star and a comment, the first submit is accepted exactly when the comment has at least 10 characters, an immediate second submit never is, and "Show all" shows the whole list |
| `ProfileEdit.PlaceholderIsNotAPhone` | src/app/profile/edit/page.tsx:18-24 | the sign-up placeholder "Not specified" fails the owner schema and passes the student schema |
| `ProfileEdit.StudentSchemaValid` | src/app/profile/edit/page.tsx:18-20 | `studentProfileSchema`: a non-empty college name |
| `ProfileEdit.OwnerSchemaValid` | src/app/profile/edit/page.tsx:22-24 | `ownerProfileSchema`: exactly ten decimal digits |
| `ProfileEdit.ClassifyRole` | src/app/profile/edit/page.tsx:53-71 | the role is student when a student profile exists (even with an owner profile), else owner when an owner profile exists, else unknown; never loading |
| `ProfileEdit.Routes` | src/app/profile/edit/page.tsx:114-186 | the unknown role offers only role selection; the student and owner forms lead only to the dashboard; nothing while loading. The role selection button and both submits are proved to navigate only within this set |
| `ProfileEdit.EditProfilePage.constructor` | src/app/profile/edit/page.tsx:33-44 | the role starts as loading and both form fields empty |
| `ProfileEdit.EditProfilePage.FetchUserRole` | src/app/profile/edit/page.tsx:53-71 | the probes set the role to the classification and copy the found profile's editable field into its form |
| `ProfileEdit.EditProfilePage.Load` | src/app/profile/edit/page.tsx:46-74 | nothing happens while the user loads or without a store; without a user the page redirects to login and never classifies; otherwise the role is classified |
| `ProfileEdit.EditProfilePage.GoToRoleSelection` | src/app/profile/edit/page.tsx:114-127 | the button, rendered only for an unknown role, goes to role selection, a route the role allows |
| `ProfileEdit.EditProfilePage.EditCollegeName` | src/app/profile/edit/page.tsx:140-155 | typing into the college name field, rendered only for a student, sets that field and nothing else |
| `ProfileEdit.EditProfilePage.EditContactNumber` | src/app/profile/edit/page.tsx:164-179 | typing into the contact number field, rendered only for an owner, sets that field and nothing else |
| `ProfileEdit.EditProfilePage.StudentSubmit` | src/app/profile/edit/page.tsx:76-89 | submitting the student form (rendered only for a student): a valid college name from the form, with a user, a store and an existing student document, updates only that document's `collegeName` and goes to the dashboard, a route the role allows; otherwise nothing changes |
| `ProfileEdit.EditProfilePage.OwnerSubmit` | src/app/profile/edit/page.tsx:91-104 | submitting the owner form (rendered only for an owner): a ten-digit number from the form, with a user, a store and an existing owner document, updates only that document's `contactNumber` and goes to the dashboard, a route the role allows; otherwise nothing changes |
| `ProfileEdit.LoadBothProfiles` | src/app/profile/edit/page.tsx:53-60 | a user with both profiles gets the student form, filled with the stored college name |
| `ProfileEdit.OwnerSignupThenEdit` | src/app/profile/edit/page.tsx:62-104 | an owner who signed up by e-mail is classified as owner and shown the placeholder, which the owner schema refuses; typing a number and saving stores it and goes to the dashboard exactly when it is ten digits |
| `Profiles.ProfileStore.constructor` | src/components/auth/signup-form.tsx:68-84 | the store starts empty, so every document trivially records its own uid as `id`, the invariant the sign-up writes (`id: user.uid`) and the profile updates keep |
| `Profiles.ProfileStore.HasProfile` | src/components/auth/signup-form.tsx:117-120 | a uid has a profile when either collection holds a document for it |
| `Signup.SignupValid` | src/components/auth/signup-form.tsx:31-38 | `signupSchema`: a name, a valid e-mail, a password of at least 8 characters, a role of student or owner |
| `Signup.DefaultInput` | src/components/auth/signup-form.tsx:50-55 | the form starts with role student and empty name and password |
| `Signup.DefaultsInvalid` | src/components/auth/signup-form.tsx:50-55 | the default values never pass the schema |
| `Signup.GoogleName` | src/components/auth/signup-form.tsx:132 | the stored name is the display name when present and non-empty, otherwise "New User" |
| `Signup.EmailSignup` | src/components/auth/signup-form.tsx:58-103 | on success exactly one profile is written, with id = uid and the "Not specified" placeholder, in `students` for a student and `propertyOwners` otherwise, and the user goes to the dashboard; any failure writes nothing and does not navigate |
| `Signup.GoogleSignup` | src/components/auth/signup-form.tsx:105-162 | a user with a profile in either collection is only signed in; a new user gets one profile in the collection the form's role picks; an unavailable store, a failed pop-up, a failed read or a failed write writes nothing and does not navigate |
| `Signup.GoogleSignupTwice` | src/components/auth/signup-form.tsx:114-150 | two Google sign-ups leave the store exactly as the first leaves it: a new profile for the first role, or nothing if one existed; the second only signs the user in, whatever its role and write outcome |
| `AddPropertyForm.DefaultForm` | src/app/owner/add-property/page.tsx:57-68 | the room type starts unset, no facilities or meal plans are checked and the mess switch is off |
| `AddPropertyForm.PropertySchemaValid` | src/app/owner/add-property/page.tsx:31-48 | `propertySchema`: name, room type and ten-digit contact present, description of at least 20 characters, rent and capacity at least 1, distance and availability at least 0; the mess fields optional |
| `AddPropertyForm.DefaultsMeetNumericBounds` | src/app/owner/add-property/page.tsx:57-68 | the defaults meet every numeric bound: filling in name, room type, description and a ten-digit contact makes the form valid, and the defaults alone are not |
| `AddPropertyForm.AvailabilityAboveCapacityAccepted` | src/app/owner/add-property/page.tsx:37-38 | no rule relates availability to capacity: a valid form stays valid with availability above capacity |
| `AddPropertyForm.MessFieldsIgnored` | src/app/owner/add-property/page.tsx:41-47 | validity does not depend on the mess switch or any mess field |
| `AddPropertyForm.CheckboxChange` | src/app/owner/add-property/page.tsx:180-188 | checking appends the item at the end; unchecking removes every copy and keeps the rest; afterwards the box shows what was clicked |
| `AddPropertyForm.MealPlanChange` | src/app/owner/add-property/page.tsx:384-392 | the same toggle on a possibly undefined list, taken as empty |
| `AddPropertyForm.CheckThenUncheck` | src/app/owner/add-property/page.tsx:180-188 | checking and then unchecking a clear box restores the list |
| `AddPropertyForm.CheckTwiceThenUncheck` | src/app/owner/add-property/page.tsx:180-188 | checking twice adds two copies; one uncheck removes both |
| `AddMessForm.ParseDay` | src/app/owner/add-mess/page.tsx:43-49 | a day parses exactly when breakfast, lunch and dinner are all present, empty strings included |
| `AddMessForm.ParseMenu` | src/app/owner/add-mess/page.tsx:42-50 | the menu parses exactly when all seven weekdays parse, and each parsed day is that day's fields |
| `AddMessForm.MenuFields` | src/app/owner/add-mess/page.tsx:243-251 | the form has a field for every day and meal, holding that meal of the menu |
| `AddMessForm.ParseMenuFields` | src/app/owner/add-mess/page.tsx:42-54 | every weekly menu written into the form parses back to itself |
| `AddMessForm.ParseDayFields` | src/app/owner/add-mess/page.tsx:42-54 | one day written into the form parses back to that day's three meals |
| `AddMessForm.ParseMenuReadsFields` | src/app/owner/add-mess/page.tsx:42-50 | a parsed menu holds, for each day and meal, exactly what that field says |
| `AddMessForm.MissingMealRefused` | src/app/owner/add-mess/page.tsx:42-50 | a menu missing one meal of one day is refused |
| `AddMessForm.DefaultMessForm` | src/app/owner/add-mess/page.tsx:59-76 | the defaults are food type veg, monthly price 3000, no other price, and an empty menu that parses |
| `AddMessForm.MessSchemaValid` | src/app/owner/add-mess/page.tsx:30-51 | `messSchema`: name, address, food type and ten-digit contact present, description of at least 20 characters, distance at least 0, a full weekly menu; prices optional |
| `AddMessForm.DefaultsNeedOnlyText` | src/app/owner/add-mess/page.tsx:59-76 | from the defaults, valid name, description (20 characters), address and ten-digit contact make the form valid, and nothing else is needed |
| `AddMessForm.PricesUnconstrained` | src/app/owner/add-mess/page.tsx:36-40 | the three prices are optional and unbounded: changing them never changes validity |

## Left out

- Firestore and Firebase Authentication are parameters, not models:
  - account creation and the Google pop-up;
  - store availability, the success of the Google sign-up's reads, and write success.
  The profile documents themselves live in a `ProfileStore` object that the pages read and write directly.
  The `useUser`, `useDoc` and `useCollection` hooks, latency, subscriptions and the order of asynchronous effects are not modelled.
- Toasts, `console.log`, loading spinners and submitting flags are not modelled. `isSubmitting`, `isLoading` and `isGoogleLoading` are set and reset within one handler.
- A failed `getDoc` inside the role probe is an unhandled rejection in the page. It is not modelled.
- The e-mail check of the sign-up schema (`z.string().email()`) belongs to the schema library. It is a boolean parameter (`emailValid`).
- A Google account's e-mail is taken as a string. A `null` e-mail is not modelled.
- The profile probe's `|| ''` fallback for a missing field is not modelled: documents always carry their fields.
- Numeric form fields are the values after `z.coerce.number()`. Coercion of non-numeric text, which the schema refuses, is not modelled.
- Rent, capacity, availability and review counts are integers. JavaScript numbers are doubles: the model does exact arithmetic (unbounded integers and reals), so rounding in sums and in the occupancy division is not modelled.
- `toFixed(0)`, `toLocaleString` and the progress bar are not modelled.
- Lower-casing covers ASCII letters only. Unicode case folding is not modelled.
- Strings are sequences of characters, not UTF-16 code units.
- `parseInt` skips ASCII white space only, not the other Unicode space characters. Very long digit strings are read exactly, without floating-point rounding.
- The listing pages filter a fixed mock collection. The model takes the collection as a parameter.
- `Array.prototype.sort` is taken to be stable, as the language has required since 2019. The comparator is modelled by its sort key, and `CompareMatchesKey` ties the two together.
- The slider reports one of its eleven marks. `SliderChange` takes the mark's index (0..10) rather than a number, since the slider's `min`, `max` and `step` settle which values it can produce.
- The review form's submit handler only logs and resets. No review is stored, and the model stores none.
- `src/components/mess/mess-search-filters.tsx` is not part of this model. Its state (`priceRange`) does not match the `price` field the mess page reads. The mess page's price limit is a plain filter field.
- These are not part of this model:
  - the student dashboard;
  - the login form;
  - the generative-AI flows and the recommendations form;
  - cards, header, footer, layout, image gallery, charts;
  - the home, onboarding, dashboard-selection and contact pages.
- The add-property form's mess fields are all optional, whatever the mess switch says (`AddPropertyForm.MessFieldsIgnored`); no rule ties the mess pricing to the switch.
- With the initial filters the property page still sorts, by popularity by default. `PropertySearch.InitialFiltersKeepAll` states the identity for the filter step only, and `PropertySearch.SearchPropertiesCharacterized` describes the order the sort then imposes.
