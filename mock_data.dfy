/**
 * The computed parts of src/lib/mock-data.ts: the category colour table, the
 * display form of a category name, the budget-versus-actual chart rows and
 * the shape of the generated mood history.
 */
module MockData {
  import opened Wrappers
  import opened Types

  /** `categoryColors`: one hex colour per category name. */
  const CategoryColors: map<string, string> := map[
    "housing" := "#4CAF50",
    "food" := "#2196F3",
    "transportation" := "#FF9800",
    "utilities" := "#9C27B0",
    "healthcare" := "#F44336",
    "entertainment" := "#3F51B5",
    "shopping" := "#E91E63",
    "personal" := "#607D8B",
    "education" := "#00BCD4",
    "other" := "#795548"
  ]

  /** The table is total over the category union, and every colour is a non-empty string. */
  lemma CategoryColorsTotal(c: Category)
    ensures CategoryName(c) in CategoryColors
    ensures |CategoryColors[CategoryName(c)]| == 7 && CategoryColors[CategoryName(c)][0] == '#'
  {
  }

  /** The table has an entry for a string exactly when that string names a category, and no empty colour. */
  lemma CategoryColorsKeys(s: string)
    ensures s in CategoryColors <==> ParseCategory(s).Some?
    ensures s in CategoryColors ==> CategoryColors[s] != ""
  {
    if ParseCategory(s).Some? {
      CategoryColorsTotal(ParseCategory(s).value);
    }
  }

  predicate IsLowerAscii(ch: char) { 'a' <= ch <= 'z' }
  predicate IsUpperAscii(ch: char) { 'A' <= ch <= 'Z' }

  /** `String.prototype.toUpperCase` on one character, for the ASCII letters. */
  function UpperChar(ch: char): (r: char)
    ensures IsLowerAscii(ch) ==> IsUpperAscii(r) && r as int == ch as int - 32
    ensures !IsLowerAscii(ch) ==> r == ch
  {
    if IsLowerAscii(ch) then (ch as int - 32) as char else ch
  }

  /**
   * `getCategoryName`: the first character upper-cased, the rest as it is;
   * `charAt(0)` of the empty string is empty, so "" stays "".
   */
  function CategoryDisplayName(category: string): (r: string)
    ensures |r| == |category|
    ensures forall i :: 1 <= i < |category| ==> r[i] == category[i]
    ensures |category| > 0 ==> r[0] == UpperChar(category[0])
  {
    if category == [] then [] else [UpperChar(category[0])] + category[1..]
  }

  /** Capitalising twice is capitalising once. */
  lemma CategoryDisplayNameIdempotent(s: string)
    ensures CategoryDisplayName(CategoryDisplayName(s)) == CategoryDisplayName(s)
  {
    if s != [] {
      var once := CategoryDisplayName(s);
      assert once[0] == UpperChar(s[0]);
      assert UpperChar(once[0]) == once[0];
    }
  }

  /** Each category's display name is its lower-case name with an upper-case first letter. */
  lemma CategoryDisplayNameOfCategory(c: Category)
    ensures var n := CategoryName(c); var d := CategoryDisplayName(n);
      |d| == |n| > 0 && IsUpperAscii(d[0]) && UpperChar(n[0]) == d[0] && d[1..] == n[1..]
  {
  }

  /** One bar group of the budget-versus-actual chart. */
  datatype ChartRow = ChartRow(name: string, budget: real, spent: real)

  /** `budgetVsActualData`: one row per budget, in the budgets' order. */
  function BudgetVsActual(budgets: seq<Budget>): (r: seq<ChartRow>)
    ensures |r| == |budgets|
    ensures forall i :: 0 <= i < |budgets| ==>
      r[i].budget == budgets[i].amount && r[i].spent == budgets[i].spent &&
      r[i].name == CategoryDisplayName(CategoryName(budgets[i].category))
  {
    seq(|budgets|, i requires 0 <= i < |budgets| =>
      ChartRow(CategoryDisplayName(CategoryName(budgets[i].category)), budgets[i].amount, budgets[i].spent))
  }

  /** The chart labels read back to their categories: lower-casing the first letter gives the category name. */
  lemma {:induction false} BudgetVsActualLabels(budgets: seq<Budget>, i: nat)
    requires i < |budgets|
    ensures var name := BudgetVsActual(budgets)[i].name; var n := CategoryName(budgets[i].category);
      |name| > 0 && IsUpperAscii(name[0]) && ParseCategory([(name[0] as int + 32) as char] + name[1..]) == Some(budgets[i].category)
  {
    var c := budgets[i].category;
    var n := CategoryName(c);
    var name := BudgetVsActual(budgets)[i].name;
    CategoryDisplayNameOfCategory(c);
    assert IsLowerAscii(n[0]) by { match c case _ => }
    assert [(name[0] as int + 32) as char] + name[1..] == n;
    ParseCategoryName(c);
  }

  const MockMoodNote: string := "Made good progress on my budget goals"

  /**
   * `mockMoods`: thirty entries, entry `i` dated `i` days before `today`, with
   * the note on every fifth entry. The random id and the random mood are
   * inputs (`ids`, `pick`).
   */
  function MockMoods(today: int, ids: nat -> string, pick: nat -> MoodKind): (r: seq<MoodEntry>)
    ensures |r| == 30
    ensures forall i :: 0 <= i < 30 ==> r[i].date == today - i && r[i].mood == pick(i) && r[i].id == ids(i)
    ensures forall i :: 0 <= i < 30 ==> (r[i].note.Some? <==> i % 5 == 0)
    ensures forall i :: 0 <= i < 30 && r[i].note.Some? ==> r[i].note.value == MockMoodNote
  {
    seq(30, i requires 0 <= i < 30 =>
      MoodEntry(ids(i), today - i, pick(i), if i % 5 == 0 then Some(MockMoodNote) else None))
  }

  /** Six of the thirty mock entries carry a note. */
  lemma MockMoodsNoteCount(today: int, ids: nat -> string, pick: nat -> MoodKind)
    ensures |set i | 0 <= i < 30 && MockMoods(today, ids, pick)[i].note.Some?| == 6
  {
    var r := MockMoods(today, ids, pick);
    assert (set i | 0 <= i < 30 && r[i].note.Some?) == {0, 5, 10, 15, 20, 25};
  }
}
