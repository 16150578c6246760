/** The owner's "List Your Mess / Tiffin Service" form (`src/app/owner/add-mess/page.tsx`): its
    schema, including the fixed shape of the weekly menu (seven days of breakfast, lunch and
    dinner), and its default values. Numbers are the values after the schema's coercion. */
module AddMessForm {
  import opened Options
  import opened Text
  import opened Listings

  /** The keys of the menu grid, `weekDays` (`'monday'` to `'sunday'`) and `meals`
      (`'breakfast'`, `'lunch'`, `'dinner'`), in the form's order. */
  datatype Day = Monday | Tuesday | Wednesday | Thursday | Friday | Saturday | Sunday
  datatype Meal = Breakfast | Lunch | Dinner

  /** The menu as the form holds it: the value of field `dailyMenu.<day>.<meal>`, for the
      fields that are set. */
  type RawMenu = map<Day, map<Meal, string>>

  datatype MessForm = MessForm(
    name: string,
    description: string,
    address: string,
    distanceFromCollege: real,
    foodType: Option<string>,
    monthly: Option<real>,
    quarterly: Option<real>,
    perMeal: Option<real>,
    contactNumber: string,
    dailyMenu: RawMenu)

  /** One day's `z.object({ breakfast, lunch, dinner })`: the three strings must be there,
      empty ones included. */
  function ParseDay(raw: map<Meal, string>): (r: Option<DailyMeals>)
    ensures r.Some? <==> forall meal: Meal :: meal in raw
    ensures r.Some? ==> r.value == DailyMeals(raw[Breakfast], raw[Lunch], raw[Dinner])
  {
    EveryMealKey(raw);
    if Breakfast in raw && Lunch in raw && Dinner in raw then
      Some(DailyMeals(raw[Breakfast], raw[Lunch], raw[Dinner]))
    else None
  }

  lemma EveryMealKey(raw: map<Meal, string>)
    ensures (forall meal: Meal :: meal in raw) <==> Breakfast in raw && Lunch in raw && Dinner in raw
  {
    if Breakfast in raw && Lunch in raw && Dinner in raw {
      forall meal: Meal
        ensures meal in raw
      {
        match meal
        case Breakfast =>
        case Lunch =>
        case Dinner =>
      }
    }
  }

  /** The `dailyMenu` part of `messSchema`: every weekday present with all three meals. */
  function ParseMenu(raw: RawMenu): (r: Option<WeeklyMenu>)
    ensures r.Some? <==> forall day: Day :: day in raw && ParseDay(raw[day]).Some?
    ensures r.Some? ==> forall day: Day :: MealsOn(r.value, day) == ParseDay(raw[day]).value
  {
    if forall day: Day :: day in raw && ParseDay(raw[day]).Some? then
      Some(WeeklyMenu(
        ParseDay(raw[Monday]).value, ParseDay(raw[Tuesday]).value,
        ParseDay(raw[Wednesday]).value, ParseDay(raw[Thursday]).value,
        ParseDay(raw[Friday]).value, ParseDay(raw[Saturday]).value,
        ParseDay(raw[Sunday]).value))
    else None
  }

  /** The meals of one weekday of a menu. */
  function MealsOn(menu: WeeklyMenu, day: Day): DailyMeals
  {
    match day
    case Monday => menu.monday
    case Tuesday => menu.tuesday
    case Wednesday => menu.wednesday
    case Thursday => menu.thursday
    case Friday => menu.friday
    case Saturday => menu.saturday
    case Sunday => menu.sunday
  }

  /** One meal of one day's meals. */
  function MealOf(meals: DailyMeals, meal: Meal): string
  {
    match meal
    case Breakfast => meals.breakfast
    case Lunch => meals.lunch
    case Dinner => meals.dinner
  }

  /** The form fields for a whole menu. */
  function MenuFields(menu: WeeklyMenu): (raw: RawMenu)
    ensures forall day: Day :: day in raw && forall meal: Meal :: meal in raw[day]
    ensures forall day: Day, meal: Meal :: raw[day][meal] == MealOf(MealsOn(menu, day), meal)
  {
    map day: Day :: map meal: Meal :: MealOf(MealsOn(menu, day), meal)
  }

  /** Every weekly menu written into the form parses back to itself. */
  lemma ParseMenuFields(menu: WeeklyMenu)
    ensures ParseMenu(MenuFields(menu)) == Some(menu)
  {
    var raw := MenuFields(menu);
    forall day: Day
      ensures day in raw && ParseDay(raw[day]) == Some(MealsOn(menu, day))
    {
      ParseDayFields(menu, day);
    }
    assert ParseMenu(raw) == Some(WeeklyMenu(
      ParseDay(raw[Monday]).value, ParseDay(raw[Tuesday]).value,
      ParseDay(raw[Wednesday]).value, ParseDay(raw[Thursday]).value,
      ParseDay(raw[Friday]).value, ParseDay(raw[Saturday]).value,
      ParseDay(raw[Sunday]).value));
  }

  /** One day of a menu written into the form parses back to that day's meals. */
  lemma ParseDayFields(menu: WeeklyMenu, day: Day)
    ensures day in MenuFields(menu) && ParseDay(MenuFields(menu)[day]) == Some(MealsOn(menu, day))
  {
    var raw := MenuFields(menu)[day];
    assert raw[Breakfast] == MealsOn(menu, day).breakfast;
    assert raw[Lunch] == MealsOn(menu, day).lunch;
    assert raw[Dinner] == MealsOn(menu, day).dinner;
  }

  /** A menu that parses holds, for each day and meal, exactly what that field says. */
  lemma ParseMenuReadsFields(raw: RawMenu, day: Day, meal: Meal)
    requires ParseMenu(raw).Some?
    ensures meal in raw[day] && MealOf(MealsOn(ParseMenu(raw).value, day), meal) == raw[day][meal]
  {
    assert ParseDay(raw[day]).Some?;
  }

  /** `messSchema`. `foodType` must be chosen; the three prices are optional and unbounded. */
  predicate MessSchemaValid(f: MessForm)
  {
    && |f.name| >= 1
    && |f.description| >= 20
    && |f.address| >= 1
    && f.distanceFromCollege >= 0.0
    && f.foodType.Some?
    && IsTenDigitPhone(f.contactNumber)
    && ParseMenu(f.dailyMenu).Some?
  }

  const EmptyDay := DailyMeals("", "", "")
  const EmptyMenu := WeeklyMenu(EmptyDay, EmptyDay, EmptyDay, EmptyDay, EmptyDay, EmptyDay, EmptyDay)

  /** `defaultValues`: food type veg, a monthly price of 3000 and an empty menu. */
  function DefaultMessForm(): (f: MessForm)
    ensures ParseMenu(f.dailyMenu) == Some(EmptyMenu)
    ensures f.foodType == Some("veg") && f.monthly == Some(3000.0) && f.quarterly.None? && f.perMeal.None?
  {
    ParseMenuFields(EmptyMenu);
    MessForm("", "", "", 0.0, Some("veg"), Some(3000.0), None, None, "", MenuFields(EmptyMenu))
  }

  /** From the defaults, filling in the name, address, description and contact number is
      enough: the empty menu, the missing prices and distance 0 all pass. */
  lemma DefaultsNeedOnlyText(name: string, description: string, address: string, contact: string)
    ensures MessSchemaValid(DefaultMessForm().(name := name, description := description,
                                                address := address, contactNumber := contact))
        <==> |name| >= 1 && |description| >= 20 && |address| >= 1 && IsTenDigitPhone(contact)
  {
  }

  /** No price has a bound: any change of the three prices keeps a valid form valid. */
  lemma PricesUnconstrained(f: MessForm, monthly: Option<real>, quarterly: Option<real>, perMeal: Option<real>)
    ensures MessSchemaValid(f) <==> MessSchemaValid(f.(monthly := monthly, quarterly := quarterly, perMeal := perMeal))
  {
  }

  /** A menu missing one meal of one day is refused. */
  lemma MissingMealRefused(menu: WeeklyMenu, day: Day, meal: Meal)
    ensures var raw := MenuFields(menu);
      ParseMenu(raw[day := raw[day] - {meal}]).None?
  {
    var raw := MenuFields(menu);
    var broken := raw[day := raw[day] - {meal}];
    assert meal !in broken[day];
  }
}
