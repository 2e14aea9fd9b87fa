/**
 * The closed string unions of src/lib/types.ts, and the helpers that turn a
 * submitted string into one of them the way a zod `z.enum([...])` does: the
 * string must be one of the listed names exactly.
 */
module Types {
  import opened Wrappers

  /** `ExpenseCategoryType`. */
  datatype Category =
    | Housing | Food | Transportation | Utilities | Healthcare
    | Entertainment | Shopping | Personal | Education | Other

  /** The string a category is stored and submitted as. */
  function CategoryName(c: Category): string {
    match c
    case Housing => "housing"
    case Food => "food"
    case Transportation => "transportation"
    case Utilities => "utilities"
    case Healthcare => "healthcare"
    case Entertainment => "entertainment"
    case Shopping => "shopping"
    case Personal => "personal"
    case Education => "education"
    case Other => "other"
  }

  /** The categories in the order the expense and budget forms list them. */
  const Categories: seq<Category> :=
    [Housing, Food, Transportation, Utilities, Healthcare,
     Entertainment, Shopping, Personal, Education, Other]

  lemma CategoriesListed(c: Category)
    ensures c in Categories
  {
  }

  /** `z.enum([...ten names...])`: accepts exactly the ten category names. */
  function ParseCategory(s: string): (r: Option<Category>)
    ensures r.Some? ==> CategoryName(r.value) == s
    ensures r.None? ==> forall c: Category :: CategoryName(c) != s
  {
    match s
    case "housing" => Some(Housing)
    case "food" => Some(Food)
    case "transportation" => Some(Transportation)
    case "utilities" => Some(Utilities)
    case "healthcare" => Some(Healthcare)
    case "entertainment" => Some(Entertainment)
    case "shopping" => Some(Shopping)
    case "personal" => Some(Personal)
    case "education" => Some(Education)
    case "other" => Some(Other)
    case _ => None
  }

  /** Parsing the name of a category gives that category back. */
  lemma ParseCategoryName(c: Category)
    ensures ParseCategory(CategoryName(c)) == Some(c)
  {
  }

  /** `MoodType`: the five moods the mood form offers. */
  datatype MoodKind = Happy | Neutral | Sad | Stressed | Excited

  function MoodName(m: MoodKind): string {
    match m
    case Happy => "happy"
    case Neutral => "neutral"
    case Sad => "sad"
    case Stressed => "stressed"
    case Excited => "excited"
  }

  /** `z.enum(["happy", "neutral", "sad", "stressed", "excited"])`. */
  function ParseMood(s: string): (r: Option<MoodKind>)
    ensures r.Some? ==> MoodName(r.value) == s
    ensures r.None? ==> forall m: MoodKind :: MoodName(m) != s
  {
    match s
    case "happy" => Some(Happy)
    case "neutral" => Some(Neutral)
    case "sad" => Some(Sad)
    case "stressed" => Some(Stressed)
    case "excited" => Some(Excited)
    case _ => None
  }

  /** The budget and income period `'weekly' | 'monthly' | 'yearly'`. */
  datatype Period = Weekly | Monthly | Yearly

  function PeriodName(p: Period): string {
    match p
    case Weekly => "weekly"
    case Monthly => "monthly"
    case Yearly => "yearly"
  }

  /** `z.enum(["weekly", "monthly", "yearly"])`. */
  function ParsePeriod(s: string): (r: Option<Period>)
    ensures r.Some? ==> PeriodName(r.value) == s
    ensures r.None? ==> forall p: Period :: PeriodName(p) != s
  {
    match s
    case "weekly" => Some(Weekly)
    case "monthly" => Some(Monthly)
    case "yearly" => Some(Yearly)
    case _ => None
  }

  /** `Budget`: a spending limit for one category and what was spent against it. */
  datatype Budget = Budget(id: string, category: Category, amount: real, spent: real, period: Period)

  /** `Mood` of types.ts: one logged mood; `date` is a day number. */
  datatype MoodEntry = MoodEntry(id: string, date: int, mood: MoodKind, note: Option<string>)
}
