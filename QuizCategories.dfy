/** The fixed list of quiz categories and the case-insensitive membership test. */
module QuizCategories {

  import opened Text

  const Categories: seq<string> := [
    "General Knowledge", "Science", "Mathematics", "History", "Geography",
    "Literature", "Technology", "Sports", "Entertainment", "Health & Medicine",
    "Business & Finance", "Art & Culture", "Language", "Philosophy", "Psychology",
    "Education", "Environment", "Food & Cooking", "Travel", "Music"
  ]

  /** Twenty entries, no two alike. */
  lemma CategoriesDistinct()
    ensures |Categories| == 20
    ensures forall i, j :: 0 <= i < j < |Categories| ==> Categories[i] != Categories[j]
  {
  }

  /** A new list holding the categories in order; changing it leaves Categories alone. */
  method GetAllCategories() returns (list: array<string>)
    ensures fresh(list)
    ensures list[..] == Categories
  {
    list := new string[|Categories|];
    var i := 0;
    while i < |Categories|
      invariant 0 <= i <= |Categories|
      invariant list[..i] == Categories[..i]
    {
      list[i] := Categories[i];
      i := i + 1;
    }
  }

  /** Whether some entry of `list` equals `category`, ignoring case. */
  function ContainsIgnoreCase(list: seq<string>, category: string): (found: bool)
    ensures found <==> exists i :: 0 <= i < |list| && EqualsIgnoreCase(list[i], category)
  {
    if list == [] then false
    else EqualsIgnoreCase(list[0], category) || ContainsIgnoreCase(list[1..], category)
  }

  function IsValidCategory(category: string): (valid: bool)
    ensures valid <==> exists i :: 0 <= i < |Categories| && EqualsIgnoreCase(Categories[i], category)
  {
    ContainsIgnoreCase(Categories, category)
  }

  /** Every listed category is valid, in any letter case. */
  lemma ListedCategoriesValid(i: nat)
    requires i < |Categories|
    ensures IsValidCategory(Categories[i])
    ensures IsValidCategory(ToUpper(Categories[i])) && IsValidCategory(ToLower(Categories[i]))
  {
    var c := Categories[i];
    assert EqualsIgnoreCase(c, c);
    UpperIgnoresCase(c);
  }

  lemma UpperIgnoresCase(s: string)
    ensures ToUpper(ToUpper(s)) == ToUpper(s)
    ensures ToUpper(ToLower(s)) == ToUpper(s)
  {
    assert forall i :: 0 <= i < |s| ==> UpperChar(UpperChar(s[i])) == UpperChar(s[i]);
    assert forall i :: 0 <= i < |s| ==> UpperChar(LowerChar(s[i])) == UpperChar(s[i]);
  }
}
