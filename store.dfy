/** The process-wide cookbook of `create_entry`: two append-only lists, one of
    recipes and one of ingredients. */
module Store {
  import opened Wrappers
  import opened Entries

  /** Why a registration is refused. */
  datatype RegisterError =
    | InvalidEntryType         // the type tag is neither "recipe" nor "ingredient"
    | DuplicateRecipe          // answered with the same message as InvalidEntryType
    | InvalidCookTime(name: string)
    | DuplicateIngredient

  class Cookbook {
    var recipes: seq<Recipe>
    var ingredients: seq<Ingredient>

    /** Names are unique within each list; a recipe and an ingredient may
        still share a name, since registration never compares the two. */
    ghost predicate Valid()
      reads this
    {
      Distinct(RecipeNames(recipes)) && Distinct(IngredientNames(ingredients))
    }

    constructor ()
      ensures Valid()
      ensures recipes == [] && ingredients == []
    {
      recipes := [];
      ingredients := [];
    }

    /** `create_entry`: checks the entry and, if it passes, appends it to the
        list of its kind. A recipe is checked only against recipes and an
        ingredient only against ingredients; the cook time is checked before
        the name. */
    method Register(entry: Entry) returns (r: Outcome<RegisterError>)
      requires Valid()
      modifies this
      ensures Valid()
      ensures r.Fail? ==> recipes == old(recipes) && ingredients == old(ingredients)
      ensures entry.UnknownEntry? ==> r == Fail(InvalidEntryType)
      ensures entry.RecipeEntry? ==>
        if HasRecipe(old(recipes), entry.name) then r == Fail(DuplicateRecipe)
        else r == Pass && recipes == old(recipes) + [Recipe(entry.name, entry.requiredItems)] &&
             ingredients == old(ingredients)
      ensures entry.IngredientEntry? ==>
        if entry.cookTime < 0 then r == Fail(InvalidCookTime(entry.name))
        else if HasIngredient(old(ingredients), entry.name) then r == Fail(DuplicateIngredient)
        else r == Pass && ingredients == old(ingredients) + [Ingredient(entry.name, entry.cookTime)] &&
             recipes == old(recipes)
    {
      match entry
      case RecipeEntry(name, requiredItems) =>
        if FindRecipe(recipes, name).None? {
          recipes := recipes + [Recipe(name, requiredItems)];
          r := Pass;
        } else {
          r := Fail(DuplicateRecipe);
        }
      case IngredientEntry(name, cookTime) =>
        if cookTime < 0 {
          return Fail(InvalidCookTime(name));
        }
        if FindIngredient(ingredients, name).Some? {
          return Fail(DuplicateIngredient);
        }
        // The source appends the new ingredient to the recipes list, where
        // the recipe lookups would find it and the ingredients list would
        // stay empty; it belongs in the ingredients.
        ingredients := ingredients + [Ingredient(name, cookTime)];
        r := Pass;
      case UnknownEntry(_, _) =>
        r := Fail(InvalidEntryType);
    }
  }

  /** Names are checked per kind only: an ingredient and a recipe may share
      a name, a second ingredient of that name is refused. */
  method DuplicateScenario()
  {
    var book := new Cookbook();
    var a := book.Register(IngredientEntry("Eggs", 2));
    assert a == Pass;
    var b := book.Register(RecipeEntry("Eggs", []));
    assert b == Pass && book.ingredients == [Ingredient("Eggs", 2)];
    assert HasIngredient(book.ingredients, "Eggs") by { assert IngredientNames(book.ingredients)[0] == "Eggs"; }
    var c := book.Register(IngredientEntry("Eggs", 5));
    assert c == Fail(DuplicateIngredient);
  }

  /** A cook time of zero is accepted and a negative one refused; any other
      type tag is refused. */
  method CookTimeScenario()
  {
    var book := new Cookbook();
    var d := book.Register(IngredientEntry("Milk", -1));
    assert d == Fail(InvalidCookTime("Milk"));
    var e := book.Register(IngredientEntry("Milk", 0));
    assert e == Pass;
    var f := book.Register(UnknownEntry("drink", "Tea"));
    assert f == Fail(InvalidEntryType);
  }
}
