/** The records of `src/lib/types.ts`: properties, mess listings, reviews and the two profile kinds. */
module Listings {
  import opened Options

  /** `Property.type`. */
  datatype RoomType = Single | Shared | Studio

  /** The string the store holds for a room type. */
  function RoomTypeName(t: RoomType): string
  {
    match t
    case Single => "single"
    case Shared => "shared"
    case Studio => "studio"
  }

  /** `MessListing.foodType` and `messDetails.type`. */
  datatype FoodType = Veg | NonVeg | Both

  function FoodTypeName(f: FoodType): string
  {
    match f
    case Veg => "veg"
    case NonVeg => "non-veg"
    case Both => "both"
  }

  datatype PricingModel = Included | PerMeal | MonthlyPlan

  /** `Property.messDetails`. */
  datatype MessDetails = MessDetails(
    available: bool,
    foodType: FoodType,
    pricingModel: PricingModel,
    price: Option<int>,
    mealPlans: seq<string>,
    timings: string,
    distanceFromRoom: real)

  datatype Property = Property(
    id: string,
    name: string,
    collegeName: string,
    address: string,
    rent: int,
    roomType: RoomType,
    facilities: seq<string>,
    imageIds: seq<string>,
    distanceFromCollege: real,
    totalCapacity: int,
    currentAvailability: int,
    ownerContactNumber: string,
    propertyOwnerId: string,
    averageRating: Option<real>,
    reviewCount: Option<int>,
    description: string,
    messDetails: Option<MessDetails>)

  datatype DailyMeals = DailyMeals(breakfast: string, lunch: string, dinner: string)

  /** `MessListing.dailyMenu`: one entry per weekday. */
  datatype WeeklyMenu = WeeklyMenu(
    monday: DailyMeals,
    tuesday: DailyMeals,
    wednesday: DailyMeals,
    thursday: DailyMeals,
    friday: DailyMeals,
    saturday: DailyMeals,
    sunday: DailyMeals)

  datatype Pricing = Pricing(monthly: Option<int>, quarterly: Option<int>, perMeal: Option<int>)

  datatype MessListing = MessListing(
    id: string,
    name: string,
    description: string,
    distanceFromCollege: real,
    foodType: FoodType,
    pricing: Pricing,
    imageIds: seq<string>,
    averageRating: real,
    reviewCount: int,
    dailyMenu: WeeklyMenu,
    address: string,
    ownerId: string)

  datatype Review = Review(
    id: string,
    propertyId: Option<string>,
    messId: Option<string>,
    studentId: string,
    studentName: string,
    rating: int,
    comment: string,
    createdAt: string)

  datatype Student = Student(id: string, name: string, email: string, collegeName: string)

  datatype PropertyOwner = PropertyOwner(id: string, name: string, email: string, contactNumber: string)
}
