/** The cookbook's entries and the name lookups over them. A lookup is the
    source's list comprehension followed by `[0]`: the first entry with that
    name, if any. */
module Entries {
  import opened Wrappers

  /** A quantity of another entry, referred to by name and resolved only when
      a summary is asked for. */
  datatype RequiredItem = RequiredItem(name: string, quantity: int)

  datatype Recipe = Recipe(name: string, requiredItems: seq<RequiredItem>)

  datatype Ingredient = Ingredient(name: string, cookTime: int)

  /** A type tag other than the two the cookbook accepts. */
  type OtherTag = t: string | t != "recipe" && t != "ingredient" witness ""

  /** A registration request: the two kinds the cookbook accepts, or any other
      type tag. */
  datatype Entry =
    | RecipeEntry(name: string, requiredItems: seq<RequiredItem>)
    | IngredientEntry(name: string, cookTime: int)
    | UnknownEntry(entryType: OtherTag, name: string)

  /** Where `name` first occurs in `ns`, if it does. */
  function FirstIndex(ns: seq<string>, name: string): (r: Option<nat>)
    ensures r.Some? ==> r.value < |ns| && ns[r.value] == name &&
                        forall j :: 0 <= j < r.value ==> ns[j] != name
    ensures r.None? <==> name !in ns
  {
    if ns == [] then None
    else if ns[0] == name then Some(0)
    else match FirstIndex(ns[1..], name)
      case Some(k) => Some(k + 1)
      case None => None
  }

  /** No name occurs twice. */
  predicate Distinct(ns: seq<string>)
  {
    forall i, j :: 0 <= i < j < |ns| ==> ns[i] != ns[j]
  }

  function RecipeNames(recipes: seq<Recipe>): (r: seq<string>)
    ensures |r| == |recipes| && forall i :: 0 <= i < |r| ==> r[i] == recipes[i].name
  {
    seq(|recipes|, i requires 0 <= i < |recipes| => recipes[i].name)
  }

  function IngredientNames(ingredients: seq<Ingredient>): (r: seq<string>)
    ensures |r| == |ingredients| && forall i :: 0 <= i < |r| ==> r[i] == ingredients[i].name
  {
    seq(|ingredients|, i requires 0 <= i < |ingredients| => ingredients[i].name)
  }

  predicate HasRecipe(recipes: seq<Recipe>, name: string)
  {
    name in RecipeNames(recipes)
  }

  predicate HasIngredient(ingredients: seq<Ingredient>, name: string)
  {
    name in IngredientNames(ingredients)
  }

  /** The first recipe called `name`. */
  function FindRecipe(recipes: seq<Recipe>, name: string): (r: Option<Recipe>)
    ensures r.Some? <==> HasRecipe(recipes, name)
    ensures r.Some? ==> r.value.name == name
    ensures r.Some? ==> exists i :: 0 <= i < |recipes| && recipes[i] == r.value && r.value.name == name &&
                                    forall j :: 0 <= j < i ==> recipes[j].name != name
  {
    match FirstIndex(RecipeNames(recipes), name)
    case Some(i) => Some(recipes[i])
    case None => None
  }

  /** The first ingredient called `name`. */
  function FindIngredient(ingredients: seq<Ingredient>, name: string): (r: Option<Ingredient>)
    ensures r.Some? <==> HasIngredient(ingredients, name)
    ensures r.Some? ==> r.value.name == name
    ensures r.Some? ==> exists i :: 0 <= i < |ingredients| && ingredients[i] == r.value && r.value.name == name &&
                                    forall j :: 0 <= j < i ==> ingredients[j].name != name
  {
    match FirstIndex(IngredientNames(ingredients), name)
    case Some(i) => Some(ingredients[i])
    case None => None
  }
}
