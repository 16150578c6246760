/** The owner's "List Your Property" form (`src/app/owner/add-property/page.tsx`): its
    schema, its default values and its facility and meal-plan checkboxes. Numbers are the
    values after the schema's coercion. */
module AddPropertyForm {
  import opened Options
  import opened Text
  import opened Seqs

  datatype PropertyForm = PropertyForm(
    propertyName: string,
    distanceFromCollege: real,
    roomType: Option<string>,
    rent: real,
    facilities: seq<string>,
    totalCapacity: real,
    currentAvailability: real,
    description: string,
    contactNumber: string,
    messAvailable: bool,
    messType: Option<string>,
    messPricingModel: Option<string>,
    messPrice: Option<real>,
    mealPlans: Option<seq<string>>,
    messTimings: Option<string>,
    messDistanceFromRoom: Option<real>)

  /** `propertySchema`. The mess fields are all optional and carry no bound, whatever the
      `messAvailable` switch says; the switch only shows or hides them. */
  predicate PropertySchemaValid(f: PropertyForm)
  {
    && |f.propertyName| >= 1
    && f.distanceFromCollege >= 0.0
    && f.roomType.Some?
    && f.rent >= 1.0
    && f.totalCapacity >= 1.0
    && f.currentAvailability >= 0.0
    && |f.description| >= 20
    && IsTenDigitPhone(f.contactNumber)
  }

  /** `defaultValues`: room type, mess type, pricing model, price, timings and mess distance
      start undefined. */
  function DefaultForm(): (f: PropertyForm)
    ensures f.roomType.None? && f.facilities == [] && f.mealPlans == Some([]) && !f.messAvailable
  {
    PropertyForm("", 0.0, None, 5000.0, [], 1.0, 1.0, "", "", false, None, None, None, Some([]), None, None)
  }

  /** The defaults meet every numeric bound: a form is valid as soon as the name, the room
      type, the description and the contact number are filled in properly. */
  lemma DefaultsMeetNumericBounds(name: string, roomType: string, description: string, contact: string)
    ensures PropertySchemaValid(DefaultForm().(propertyName := name, roomType := Some(roomType),
                                               description := description, contactNumber := contact))
        <==> |name| >= 1 && |description| >= 20 && IsTenDigitPhone(contact)
    ensures !PropertySchemaValid(DefaultForm())
  {
  }

  /** Nothing relates availability to capacity: raising the availability of a valid form
      above its capacity keeps it valid. */
  lemma AvailabilityAboveCapacityAccepted(f: PropertyForm, extra: real)
    requires PropertySchemaValid(f) && extra > 0.0
    ensures var g := f.(currentAvailability := f.totalCapacity + extra);
      PropertySchemaValid(g) && g.currentAvailability > g.totalCapacity
  {
  }

  /** Validity does not depend on any mess field nor on the switch. */
  lemma MessFieldsIgnored(f: PropertyForm, messAvailable: bool, messType: Option<string>,
                          messPricingModel: Option<string>, messPrice: Option<real>,
                          mealPlans: Option<seq<string>>, messTimings: Option<string>,
                          messDistanceFromRoom: Option<real>)
    ensures PropertySchemaValid(f) <==>
      PropertySchemaValid(f.(messAvailable := messAvailable, messType := messType,
                             messPricingModel := messPricingModel, messPrice := messPrice,
                             mealPlans := mealPlans, messTimings := messTimings,
                             messDistanceFromRoom := messDistanceFromRoom))
  {
  }

  /** A facility checkbox: checking appends the item (`[...field.value, item]`), unchecking
      keeps every other value (`filter(value => value !== item)`). Afterwards the box shows
      what was clicked. */
  function CheckboxChange(values: seq<string>, item: string, checked: bool): (r: seq<string>)
    ensures (item in r) == checked
    ensures checked ==> |r| == |values| + 1 && r[..|values|] == values && r[|values|] == item
    ensures !checked ==> forall x :: x != item ==> multiset(r)[x] == multiset(values)[x]
    ensures !checked && item !in values ==> r == values
  {
    if checked then values + [item] else RemoveAll(values, item)
  }

  /** A meal-plan checkbox: the same, on a list that may be undefined (`field.value || []`). */
  function MealPlanChange(values: Option<seq<string>>, item: string, checked: bool): (r: seq<string>)
    ensures (item in r) == checked
    ensures values.None? ==> r == (if checked then [item] else [])
  {
    CheckboxChange(values.GetOr([]), item, checked)
  }

  /** Checking a box that was clear and then clearing it again gives back the list. */
  lemma CheckThenUncheck(values: seq<string>, item: string)
    requires item !in values
    ensures CheckboxChange(CheckboxChange(values, item, true), item, false) == values
  {
    RemoveAllAppended(values, item);
  }

  /** Checking a box twice in a row adds a second copy; a single uncheck removes both. */
  lemma CheckTwiceThenUncheck(values: seq<string>, item: string)
    requires item !in values
    ensures |CheckboxChange(CheckboxChange(values, item, true), item, true)| == |values| + 2
    ensures CheckboxChange(CheckboxChange(CheckboxChange(values, item, true), item, true), item, false) == values
  {
    RemoveAllConcat(values, [item, item], item);
    assert values + [item] + [item] == values + [item, item];
    assert RemoveAll([item, item], item) == [];
  }
}
