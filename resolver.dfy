/** The `/summary` query: `summary` looks the name up, and `get_summary`
    expands a recipe depth first into base-ingredient quantities and a total
    cook time, filling one result dictionary in place.

    The specification comes in two layers. `Sightings` lists, in depth-first
    order, every base ingredient the expansion meets, already scaled by the
    multipliers on its path; `Feed` folds such a list into running totals the
    way the source updates its dictionary. The lemmas at the end characterise
    the fold without reference to it: the lines are the first-seen names, each
    line's quantity is the sum of its sightings, and the cook time counts each
    ingredient once, at its first sighting.

    The source recurses once per nested recipe until Python's recursion limit
    raises `RecursionError`, which a cyclic cookbook always reaches. Here
    `fuel` stands in for that limit: it bounds how deep recipes may nest below
    the one asked about, and reaching it is the error `DepthExceeded`, in
    place of that exception. No call stack is modelled. */
module Resolver {
  import opened Wrappers
  import opened Entries
  import opened Store

  /** One entry of the summary's ingredient list. */
  datatype Line = Line(name: string, quantity: int)

  /** The cook time and ingredient list accumulated so far. */
  datatype Totals = Totals(cookTime: int, lines: seq<Line>)

  datatype Summary =
    | IngredientSummary(name: string, cookTime: int)
    | RecipeSummary(name: string, cookTime: int, ingredients: seq<Line>)

  datatype SummaryError =
    | EntryNotFound
    | MissingRequiredItem(name: string)
    | DepthExceeded

  /** A base ingredient met during the expansion: its name and cook time, and
      the item's quantity times the multiplier in force. */
  datatype Sighting = Sighting(name: string, cookTime: int, quantity: int)

  type Expansion = Result<seq<Sighting>, SummaryError>

  /** Every sighting carries the name and cook time of a registered ingredient. */
  predicate Registered(ss: seq<Sighting>, ingredients: seq<Ingredient>)
  {
    forall s :: s in ss ==> Ingredient(s.name, s.cookTime) in ingredients
  }

  /** Sequential composition: the first failure wins, otherwise concatenate. */
  function Join(a: Expansion, b: Expansion): Expansion
  {
    match a
    case Failure(e) => Failure(e)
    case Success(x) =>
      match b
      case Failure(e) => Failure(e)
      case Success(y) => Success(x + y)
  }

  /** The base ingredients met while expanding `items` at multiplier `mult`. */
  function Sightings(recipes: seq<Recipe>, ingredients: seq<Ingredient>, items: seq<RequiredItem>,
                     mult: int, fuel: nat): (r: Expansion)
    ensures r != Failure(EntryNotFound)
    decreases fuel, |items|
  {
    if items == [] then Success([])
    else Join(ItemSightings(recipes, ingredients, items[0], mult, fuel),
              Sightings(recipes, ingredients, items[1..], mult, fuel))
  }

  /** One required item: a recipe is expanded with the multiplier times the
      item's quantity; otherwise the item must name an ingredient. A name that
      is both a recipe and an ingredient is taken as the recipe. */
  function ItemSightings(recipes: seq<Recipe>, ingredients: seq<Ingredient>, item: RequiredItem,
                         mult: int, fuel: nat): (r: Expansion)
    ensures r != Failure(EntryNotFound)
    decreases fuel, 0
  {
    match FindRecipe(recipes, item.name)
    case Some(recipe) =>
      if fuel == 0 then Failure(DepthExceeded)
      else Sightings(recipes, ingredients, recipe.requiredItems, mult * item.quantity, fuel - 1)
    case None =>
      match FindIngredient(ingredients, item.name)
      case Some(ingredient) => Success([Sighting(ingredient.name, ingredient.cookTime, item.quantity * mult)])
      case None => Failure(MissingRequiredItem(item.name))
  }

  /** The first line called `name` (the source's intended `[...][0]`). */
  function FindLine(lines: seq<Line>, name: string): (r: Option<nat>)
    ensures r.Some? ==> r.value < |lines| && lines[r.value].name == name &&
                        forall j :: 0 <= j < r.value ==> lines[j].name != name
    ensures r.None? ==> forall j :: 0 <= j < |lines| ==> lines[j].name != name
  {
    var r := FirstIndex(LineNames(lines), name);
    assert r.Some? ==> forall j :: 0 <= j < r.value ==> lines[j].name != name by {
      if r.Some? {
        forall j | 0 <= j < r.value ensures lines[j].name != name {
          assert LineNames(lines)[j] != name;
        }
      }
    }
    assert r.None? ==> forall j :: 0 <= j < |lines| ==> lines[j].name != name by {
      if r.None? {
        forall j | 0 <= j < |lines| ensures lines[j].name != name {
          assert LineNames(lines)[j] in LineNames(lines);
        }
      }
    }
    r
  }

  /** One sighting: a name already listed only gains quantity; a new name is
      appended and its cook time counted. No line is removed and at most one
      is added. */
  function Add(t: Totals, s: Sighting): (r: Totals)
    ensures |t.lines| <= |r.lines| <= |t.lines| + 1
  {
    match FindLine(t.lines, s.name)
    case Some(k) => Totals(t.cookTime, t.lines[k := t.lines[k].(quantity := t.lines[k].quantity + s.quantity)])
    case None =>
      Totals(t.cookTime + s.cookTime * s.quantity, t.lines + [Line(s.name, s.quantity)])
  }

  /** The sightings folded in order: no line is ever removed, and at most one
      is added per sighting. */
  function Feed(t: Totals, ss: seq<Sighting>): (r: Totals)
    ensures |t.lines| <= |r.lines| <= |t.lines| + |ss|
    decreases |ss|
  {
    if ss == [] then t else Feed(Add(t, ss[0]), ss[1..])
  }

  /** The specification of `summary`: a recipe is expanded from an empty
      dictionary at multiplier 1, otherwise an ingredient gives its own name
      and cook time, otherwise the entry is not found. */
  function Summarize(recipes: seq<Recipe>, ingredients: seq<Ingredient>, name: string, fuel: nat)
    : (r: Result<Summary, SummaryError>)
    ensures r == Failure(EntryNotFound) <==> !HasRecipe(recipes, name) && !HasIngredient(ingredients, name)
    ensures r.Success? ==> r.value.name == name
    ensures r.Success? && r.value.IngredientSummary? <==> !HasRecipe(recipes, name) && HasIngredient(ingredients, name)
    ensures r.Success? && r.value.IngredientSummary? ==>
              r.value.cookTime == FindIngredient(ingredients, name).value.cookTime
  {
    match FindRecipe(recipes, name)
    case Some(recipe) =>
      (match Sightings(recipes, ingredients, recipe.requiredItems, 1, fuel)
       case Failure(e) => Failure(e)
       case Success(ss) =>
         var t := Feed(Totals(0, []), ss);
         Success(RecipeSummary(recipe.name, t.cookTime, t.lines)))
    case None =>
      match FindIngredient(ingredients, name)
      case Some(ingredient) => Success(IngredientSummary(ingredient.name, ingredient.cookTime))
      case None => Failure(EntryNotFound)
  }

  // ---------------------------------------------------------------------------
  // Algebra of the expansion and of the fold
  // ---------------------------------------------------------------------------

  lemma {:induction false} SightingsAppend(recipes: seq<Recipe>, ingredients: seq<Ingredient>,
                                           a: seq<RequiredItem>, b: seq<RequiredItem>, mult: int, fuel: nat)
    ensures Sightings(recipes, ingredients, a + b, mult, fuel) ==
            Join(Sightings(recipes, ingredients, a, mult, fuel), Sightings(recipes, ingredients, b, mult, fuel))
  {
    if a == [] {
      assert a + b == b;
      var sb := Sightings(recipes, ingredients, b, mult, fuel);
      if sb.Success? { assert [] + sb.value == sb.value; }
    } else {
      assert (a + b)[0] == a[0] && (a + b)[1..] == a[1..] + b;
      SightingsAppend(recipes, ingredients, a[1..], b, mult, fuel);
      JoinAssociative(ItemSightings(recipes, ingredients, a[0], mult, fuel),
                      Sightings(recipes, ingredients, a[1..], mult, fuel),
                      Sightings(recipes, ingredients, b, mult, fuel));
    }
  }

  lemma JoinAssociative(x: Expansion, y: Expansion, z: Expansion)
    ensures Join(Join(x, y), z) == Join(x, Join(y, z))
  {
    if x.Success? && y.Success? && z.Success? {
      assert x.value + y.value + z.value == x.value + (y.value + z.value);
    }
  }

  lemma SightingsSnoc(recipes: seq<Recipe>, ingredients: seq<Ingredient>, items: seq<RequiredItem>,
                      i: nat, mult: int, fuel: nat)
    requires i < |items|
    ensures Sightings(recipes, ingredients, items[..i + 1], mult, fuel) ==
            Join(Sightings(recipes, ingredients, items[..i], mult, fuel),
                 ItemSightings(recipes, ingredients, items[i], mult, fuel))
  {
    assert items[..i + 1] == items[..i] + [items[i]];
    SightingsAppend(recipes, ingredients, items[..i], [items[i]], mult, fuel);
    assert [items[i]][1..] == [];
    var step := ItemSightings(recipes, ingredients, items[i], mult, fuel);
    if step.Success? { assert step.value + [] == step.value; }
    assert Sightings(recipes, ingredients, [items[i]], mult, fuel) == step;
  }

  /** A failing item stops the expansion, unless an earlier item failed first. */
  lemma SightingsStop(recipes: seq<Recipe>, ingredients: seq<Ingredient>, items: seq<RequiredItem>,
                      i: nat, mult: int, fuel: nat)
    requires i < |items|
    requires Sightings(recipes, ingredients, items[..i], mult, fuel).Success?
    requires ItemSightings(recipes, ingredients, items[i], mult, fuel).Failure?
    ensures Sightings(recipes, ingredients, items, mult, fuel) == ItemSightings(recipes, ingredients, items[i], mult, fuel)
  {
    assert items == items[..i] + items[i..];
    SightingsAppend(recipes, ingredients, items[..i], items[i..], mult, fuel);
    assert items[i..][0] == items[i];
  }

  lemma {:induction false} FeedAppend(t: Totals, a: seq<Sighting>, b: seq<Sighting>)
    ensures Feed(t, a + b) == Feed(Feed(t, a), b)
    decreases |a|
  {
    if a != [] {
      assert (a + b)[0] == a[0] && (a + b)[1..] == a[1..] + b;
      FeedAppend(Add(t, a[0]), a[1..], b);
    } else {
      assert a + b == b;
    }
  }

  lemma FeedSnoc(t: Totals, ss: seq<Sighting>, s: Sighting)
    ensures Feed(t, ss + [s]) == Add(Feed(t, ss), s)
  {
    FeedAppend(t, ss, [s]);
    assert [s][1..] == [];
  }

  /** Every name listed in a backed dictionary is a registered ingredient. */
  lemma BackedListed(lines: seq<Line>, ingredients: seq<Ingredient>, name: string, k: nat)
    requires Backed(lines, ingredients)
    requires k < |lines| && lines[k].name == name
    ensures FindIngredient(ingredients, name).Some?
  {
    assert HasIngredient(ingredients, lines[k].name);
  }

  /** Changing a line's quantity keeps the dictionary backed. */
  lemma BackedRequantified(lines: seq<Line>, ingredients: seq<Ingredient>, k: nat, q: int)
    requires Backed(lines, ingredients)
    requires k < |lines|
    ensures Backed(lines[k := lines[k].(quantity := q)], ingredients)
  {
    var lines' := lines[k := lines[k].(quantity := q)];
    forall j | 0 <= j < |lines'| ensures HasIngredient(ingredients, lines'[j].name) {
      assert lines'[j].name == lines[j].name;
    }
  }

  /** Appending a registered ingredient keeps the dictionary backed. */
  lemma BackedExtended(lines: seq<Line>, ingredients: seq<Ingredient>, g: Ingredient, q: int)
    requires Backed(lines, ingredients)
    requires g in ingredients
    ensures Backed(lines + [Line(g.name, q)], ingredients)
  {
    var lines' := lines + [Line(g.name, q)];
    forall j | 0 <= j < |lines'| ensures HasIngredient(ingredients, lines'[j].name) {
      if j < |lines| {
        assert lines'[j] == lines[j];
      } else {
        var i :| 0 <= i < |ingredients| && ingredients[i] == g;
      }
    }
  }

  /** A required item that names an ingredient and no recipe is one sighting. */
  lemma BaseItemSighting(recipes: seq<Recipe>, ingredients: seq<Ingredient>, item: RequiredItem,
                         mult: int, fuel: nat, g: Ingredient)
    requires FindRecipe(recipes, item.name).None?
    requires FindIngredient(ingredients, item.name) == Some(g)
    ensures ItemSightings(recipes, ingredients, item, mult, fuel) == Success([Sighting(g.name, g.cookTime, item.quantity * mult)])
  {
  }

  /** Folding a sighting whose name is listed adds to that line only. */
  lemma FeedListed(t: Totals, s: Sighting, k: nat)
    requires FindLine(t.lines, s.name) == Some(k)
    ensures Feed(t, [s]) == Totals(t.cookTime, t.lines[k := t.lines[k].(quantity := t.lines[k].quantity + s.quantity)])
  {
    assert [s][1..] == [];
    assert Feed(t, [s]) == Feed(Add(t, s), []);
  }

  /** Folding a sighting whose name is not listed appends a line. */
  lemma FeedUnlisted(t: Totals, s: Sighting)
    requires FindLine(t.lines, s.name).None?
    ensures Feed(t, [s]) == Totals(t.cookTime + s.cookTime * s.quantity, t.lines + [Line(s.name, s.quantity)])
  {
    assert [s][1..] == [];
    assert Feed(t, [s]) == Feed(Add(t, s), []);
  }

  /** A base ingredient met for the first time: appended, cook time counted. */
  lemma NewIngredientStep(recipes: seq<Recipe>, ingredients: seq<Ingredient>, item: RequiredItem,
                          mult: int, fuel: nat, t: Totals, g: Ingredient)
    requires FindRecipe(recipes, item.name).None?
    requires FindIngredient(ingredients, item.name) == Some(g)
    requires FindLine(t.lines, item.name).None?
    ensures var step := ItemSightings(recipes, ingredients, item, mult, fuel);
            && step == Success([Sighting(g.name, g.cookTime, item.quantity * mult)])
            && Feed(t, step.value) ==
               Totals(t.cookTime + g.cookTime * item.quantity * mult, t.lines + [Line(g.name, item.quantity * mult)])
  {
    var s := Sighting(g.name, g.cookTime, item.quantity * mult);
    BaseItemSighting(recipes, ingredients, item, mult, fuel, g);
    FeedUnlisted(t, s);
    assert g.cookTime * item.quantity * mult == g.cookTime * (item.quantity * mult);
  }

  /** A base ingredient met again: only its line's quantity grows. */
  lemma RepeatStep(recipes: seq<Recipe>, ingredients: seq<Ingredient>, item: RequiredItem,
                   mult: int, fuel: nat, t: Totals, g: Ingredient, k: nat)
    requires FindRecipe(recipes, item.name).None?
    requires FindIngredient(ingredients, item.name) == Some(g)
    requires FindLine(t.lines, item.name) == Some(k)
    ensures var step := ItemSightings(recipes, ingredients, item, mult, fuel);
            && step == Success([Sighting(g.name, g.cookTime, item.quantity * mult)])
            && Feed(t, step.value) ==
               Totals(t.cookTime, t.lines[k := t.lines[k].(quantity := t.lines[k].quantity + item.quantity * mult)])
  {
    BaseItemSighting(recipes, ingredients, item, mult, fuel, g);
    FeedListed(t, Sighting(g.name, g.cookTime, item.quantity * mult), k);
  }

  // ---------------------------------------------------------------------------
  // The imperative routine
  // ---------------------------------------------------------------------------

  /** The `result` dictionary that `get_summary` fills in place. */
  class Accumulator {
    var name: string
    var cookTime: int
    var ingredients: seq<Line>

    constructor (name: string)
      ensures this.name == name && cookTime == 0 && ingredients == []
    {
      this.name := name;
      cookTime := 0;
      ingredients := [];
    }

    function Current(): Totals
      reads this
    {
      Totals(cookTime, ingredients)
    }
  }

  /** Every line of the dictionary names a registered ingredient, which is why
      a repeated name may skip the cookbook lookup. */
  predicate Backed(lines: seq<Line>, ingredients: seq<Ingredient>)
  {
    forall k :: 0 <= k < |lines| ==> HasIngredient(ingredients, lines[k].name)
  }

  /** `get_summary`: walks the recipe's required items in order and updates
      the dictionary in place; the first failure aborts the walk. */
  method GetSummary(book: Cookbook, recipe: Recipe, quantity: int, acc: Accumulator, fuel: nat)
    returns (r: Outcome<SummaryError>)
    requires Backed(acc.ingredients, book.ingredients)
    modifies acc
    ensures acc.name == old(acc.name)
    ensures Backed(acc.ingredients, book.ingredients)
    ensures match Sightings(book.recipes, book.ingredients, recipe.requiredItems, quantity, fuel)
            case Success(ss) => r == Pass && acc.Current() == Feed(old(acc.Current()), ss)
            case Failure(e) => r == Fail(e)
    decreases fuel, 1
  {
    var items := recipe.requiredItems;
    ghost var recipes, ingredients := book.recipes, book.ingredients;
    ghost var start := acc.Current();
    ghost var done: seq<Sighting> := [];
    for i := 0 to |items|
      invariant acc.name == old(acc.name)
      invariant Backed(acc.ingredients, ingredients)
      invariant Sightings(recipes, ingredients, items[..i], quantity, fuel) == Success(done)
      invariant acc.Current() == Feed(start, done)
    {
      SightingsSnoc(recipes, ingredients, items, i, quantity, fuel);
      ghost var mid := acc.Current();
      var outcome := VisitItem(book, items[i], quantity, acc, fuel);
      ghost var step := ItemSightings(recipes, ingredients, items[i], quantity, fuel);
      if outcome.Fail? {
        SightingsStop(recipes, ingredients, items, i, quantity, fuel);
        return outcome;
      }
      FeedAppend(start, done, step.value);
      done := done + step.value;
    }
    assert items[..|items|] == items;
    r := Pass;
  }

  /** The body of `get_summary`'s loop for one required item: a sub-recipe is
      summarised recursively with the multiplier times the item's quantity; a
      name already in the dictionary gains quantity; a registered ingredient
      is appended and its cook time counted; anything else is an error. */
  method VisitItem(book: Cookbook, item: RequiredItem, quantity: int, acc: Accumulator, fuel: nat)
    returns (r: Outcome<SummaryError>)
    requires Backed(acc.ingredients, book.ingredients)
    modifies acc
    ensures acc.name == old(acc.name)
    ensures Backed(acc.ingredients, book.ingredients)
    ensures match ItemSightings(book.recipes, book.ingredients, item, quantity, fuel)
            case Success(ss) => r == Pass && acc.Current() == Feed(old(acc.Current()), ss)
            case Failure(e) => r == Fail(e)
    decreases fuel, 0
  {
    var newRecipe := FindRecipe(book.recipes, item.name);
    if newRecipe.Some? {
      if fuel == 0 {
        return Fail(DepthExceeded);
      }
      r := GetSummary(book, newRecipe.value, quantity * item.quantity, acc, fuel - 1);
      return;
    }
    r := AddIngredient(book, item, quantity, acc, fuel);
  }

  /** The rest of the loop body, for an item that names no recipe: a name
      already in the dictionary gains quantity; a registered ingredient is
      appended and its cook time counted; anything else is an error. */
  method AddIngredient(book: Cookbook, item: RequiredItem, quantity: int, acc: Accumulator, ghost fuel: nat)
    returns (r: Outcome<SummaryError>)
    requires FindRecipe(book.recipes, item.name).None?
    requires Backed(acc.ingredients, book.ingredients)
    modifies acc
    ensures acc.name == old(acc.name)
    ensures Backed(acc.ingredients, book.ingredients)
    ensures match ItemSightings(book.recipes, book.ingredients, item, quantity, fuel)
            case Success(ss) => r == Pass && acc.Current() == Feed(old(acc.Current()), ss)
            case Failure(e) => r == Fail(e)
  {
    ghost var before := acc.Current();
    var existing := FindLine(acc.ingredients, item.name);
    if existing.Some? {
      var k := existing.value;
      BackedListed(acc.ingredients, book.ingredients, item.name, k);
      ghost var g := FindIngredient(book.ingredients, item.name).value;
      RepeatStep(book.recipes, book.ingredients, item, quantity, fuel, before, g, k);
      BackedRequantified(acc.ingredients, book.ingredients, k, acc.ingredients[k].quantity + item.quantity * quantity);
      acc.ingredients := acc.ingredients[k := acc.ingredients[k].(quantity := acc.ingredients[k].quantity + item.quantity * quantity)];
      return Pass;
    }
    var newIngredient := FindIngredient(book.ingredients, item.name);
    if newIngredient.Some? {
      var ingredient := newIngredient.value;
      NewIngredientStep(book.recipes, book.ingredients, item, quantity, fuel, before, ingredient);
      BackedExtended(acc.ingredients, book.ingredients, ingredient, item.quantity * quantity);
      acc.ingredients := acc.ingredients + [Line(ingredient.name, item.quantity * quantity)];
      acc.cookTime := acc.cookTime + ingredient.cookTime * item.quantity * quantity;
      r := Pass;
    } else {
      r := Fail(MissingRequiredItem(item.name));
    }
  }

  /** `summary`: a recipe is expanded into a fresh dictionary; an ingredient
      answers with its name and cook time. The cookbook is only read. */
  method SummaryOf(book: Cookbook, name: string, fuel: nat) returns (r: Result<Summary, SummaryError>)
    ensures r == Summarize(book.recipes, book.ingredients, name, fuel)
  {
    var recipe := FindRecipe(book.recipes, name);
    var ingredient := FindIngredient(book.ingredients, name);
    if recipe.Some? {
      var acc := new Accumulator(recipe.value.name);
      var outcome := GetSummary(book, recipe.value, 1, acc, fuel);
      if outcome.Fail? {
        return Failure(outcome.error);
      }
      r := Success(RecipeSummary(acc.name, acc.cookTime, acc.ingredients));
    } else if ingredient.Some? {
      r := Success(IngredientSummary(ingredient.value.name, ingredient.value.cookTime));
    } else {
      r := Failure(EntryNotFound);
    }
  }

  // ---------------------------------------------------------------------------
  // What a summary means
  // ---------------------------------------------------------------------------

  /** The names of the sightings, in order. */
  function Names(ss: seq<Sighting>): seq<string>
  {
    if ss == [] then [] else Names(ss[..|ss| - 1]) + [ss[|ss| - 1].name]
  }

  /** `ns` without repeats, each name where it first occurs. */
  function FirstSeen(ns: seq<string>): seq<string>
  {
    if ns == [] then []
    else
      var prefix := ns[..|ns| - 1];
      if ns[|ns| - 1] in prefix then FirstSeen(prefix) else FirstSeen(prefix) + [ns[|ns| - 1]]
  }

  /** The sum of the quantities of the sightings called `name`. */
  function Total(ss: seq<Sighting>, name: string): int
  {
    if ss == [] then 0
    else Total(ss[..|ss| - 1], name) + (if ss[|ss| - 1].name == name then ss[|ss| - 1].quantity else 0)
  }

  /** The cook time of each ingredient times its quantity, counted only at the
      first sighting of its name. */
  function FirstCost(ss: seq<Sighting>): int
  {
    if ss == [] then 0
    else
      var prefix, s := ss[..|ss| - 1], ss[|ss| - 1];
      FirstCost(prefix) + (if s.name in Names(prefix) then 0 else s.cookTime * s.quantity)
  }

  function LineNames(lines: seq<Line>): seq<string>
  {
    seq(|lines|, k requires 0 <= k < |lines| => lines[k].name)
  }

  lemma {:induction false} FirstSeenProperties(ns: seq<string>)
    ensures Distinct(FirstSeen(ns))
    ensures forall n :: n in FirstSeen(ns) <==> n in ns
  {
    if ns != [] {
      var prefix, x := ns[..|ns| - 1], ns[|ns| - 1];
      FirstSeenProperties(prefix);
      assert ns == prefix + [x];
    }
  }

  lemma {:induction false} TotalAbsent(ss: seq<Sighting>, name: string)
    requires name !in Names(ss)
    ensures Total(ss, name) == 0
  {
    if ss != [] {
      TotalAbsent(ss[..|ss| - 1], name);
    }
  }

  /** `t` is what folding `ss` into an empty dictionary must give. */
  predicate Accounts(t: Totals, ss: seq<Sighting>)
  {
    && LineNames(t.lines) == FirstSeen(Names(ss))
    && (forall k :: 0 <= k < |t.lines| ==> t.lines[k].quantity == Total(ss, t.lines[k].name))
    && t.cookTime == FirstCost(ss)
  }

  lemma NamesSnoc(ss: seq<Sighting>, s: Sighting)
    ensures Names(ss + [s]) == Names(ss) + [s.name]
  {
    var ss' := ss + [s];
    assert ss'[..|ss'| - 1] == ss;
  }

  lemma FirstSeenSnoc(ns: seq<string>, n: string)
    ensures FirstSeen(ns + [n]) == if n in ns then FirstSeen(ns) else FirstSeen(ns) + [n]
  {
    var ns' := ns + [n];
    assert ns'[..|ns'| - 1] == ns;
  }

  lemma TotalSnoc(ss: seq<Sighting>, s: Sighting, name: string)
    ensures Total(ss + [s], name) == Total(ss, name) + (if s.name == name then s.quantity else 0)
  {
    var ss' := ss + [s];
    assert ss'[..|ss'| - 1] == ss;
  }

  lemma FirstCostSnoc(ss: seq<Sighting>, s: Sighting)
    ensures FirstCost(ss + [s]) == FirstCost(ss) + (if s.name in Names(ss) then 0 else s.cookTime * s.quantity)
  {
    var ss' := ss + [s];
    assert ss'[..|ss'| - 1] == ss;
  }

  /** A sighting of a name already listed keeps the accounts. */
  lemma AddAccountsListed(t: Totals, ss: seq<Sighting>, s: Sighting, k: nat)
    requires Accounts(t, ss)
    requires FindLine(t.lines, s.name) == Some(k)
    ensures Accounts(Add(t, s), ss + [s])
  {
    var ss' := ss + [s];
    var t' := Add(t, s);
    FirstSeenProperties(Names(ss));
    assert LineNames(t.lines)[k] == s.name;
    assert s.name in Names(ss);
    NamesSnoc(ss, s);
    FirstSeenSnoc(Names(ss), s.name);
    FirstCostSnoc(ss, s);
    assert LineNames(t'.lines) == LineNames(t.lines);
    forall j | 0 <= j < |t'.lines|
      ensures t'.lines[j].quantity == Total(ss', t'.lines[j].name)
    {
      TotalSnoc(ss, s, t'.lines[j].name);
      if j != k {
        assert LineNames(t.lines)[j] != LineNames(t.lines)[k];
      }
    }
  }

  /** A sighting of a new name keeps the accounts. */
  lemma AddAccountsUnlisted(t: Totals, ss: seq<Sighting>, s: Sighting)
    requires Accounts(t, ss)
    requires FindLine(t.lines, s.name).None?
    ensures Accounts(Add(t, s), ss + [s])
  {
    var ss' := ss + [s];
    var t' := Add(t, s);
    FirstSeenProperties(Names(ss));
    assert s.name !in LineNames(t.lines);
    assert s.name !in Names(ss);
    NamesSnoc(ss, s);
    FirstSeenSnoc(Names(ss), s.name);
    FirstCostSnoc(ss, s);
    TotalAbsent(ss, s.name);
    assert LineNames(t'.lines) == LineNames(t.lines) + [s.name];
    forall j | 0 <= j < |t'.lines|
      ensures t'.lines[j].quantity == Total(ss', t'.lines[j].name)
    {
      TotalSnoc(ss, s, t'.lines[j].name);
      if j < |t.lines| {
        assert t'.lines[j] == t.lines[j];
      }
    }
  }

  lemma AddAccounts(t: Totals, ss: seq<Sighting>, s: Sighting)
    requires Accounts(t, ss)
    ensures Accounts(Add(t, s), ss + [s])
  {
    match FindLine(t.lines, s.name)
    case Some(k) => AddAccountsListed(t, ss, s, k);
    case None => AddAccountsUnlisted(t, ss, s);
  }

  lemma {:induction false} FeedAccounts(ss: seq<Sighting>)
    ensures Accounts(Feed(Totals(0, []), ss), ss)
  {
    if ss == [] {
      assert LineNames([]) == [];
    } else {
      var prefix, s := ss[..|ss| - 1], ss[|ss| - 1];
      FeedAccounts(prefix);
      FeedSnoc(Totals(0, []), prefix, s);
      AddAccounts(Feed(Totals(0, []), prefix), prefix, s);
      assert prefix + [s] == ss;
    }
  }

  /** A repeated sighting leaves the ingredient list's length, order and the
      cook time alone and only adds to that ingredient's quantity. */
  lemma RepeatSightingAddsQuantityOnly(ss: seq<Sighting>, s: Sighting)
    requires s.name in Names(ss)
    ensures var before, after := Feed(Totals(0, []), ss), Feed(Totals(0, []), ss + [s]);
            && LineNames(after.lines) == LineNames(before.lines)
            && after.cookTime == before.cookTime
            && forall k :: 0 <= k < |after.lines| ==>
                 after.lines[k].quantity == before.lines[k].quantity + (if after.lines[k].name == s.name then s.quantity else 0)
  {
    var before := Feed(Totals(0, []), ss);
    FeedSnoc(Totals(0, []), ss, s);
    FeedAccounts(ss);
    FirstSeenProperties(Names(ss));
    assert s.name in LineNames(before.lines);
    var k := FindLine(before.lines, s.name).value;
    var after := Add(before, s);
    assert after.lines == before.lines[k := before.lines[k].(quantity := before.lines[k].quantity + s.quantity)];
    forall j | 0 <= j < |after.lines|
      ensures after.lines[j].name == before.lines[j].name
      ensures after.lines[j].quantity == before.lines[j].quantity + (if after.lines[j].name == s.name then s.quantity else 0)
    {
      if j != k {
        assert LineNames(before.lines)[j] != LineNames(before.lines)[k];
      }
    }
  }

  /** A recipe's summary: the ingredient list holds each base ingredient once,
      in the order the depth-first expansion first meets it, with the sum of
      the scaled quantities met; the cook time counts each ingredient once, at
      its first sighting. */
  lemma RecipeSummaryCharacterized(recipes: seq<Recipe>, ingredients: seq<Ingredient>, name: string, fuel: nat)
    requires HasRecipe(recipes, name)
    ensures var recipe := FindRecipe(recipes, name).value;
            var r := Summarize(recipes, ingredients, name, fuel);
            match Sightings(recipes, ingredients, recipe.requiredItems, 1, fuel)
            case Failure(e) => r == Failure(e)
            case Success(ss) =>
              && r.Success? && r.value.RecipeSummary?
              && Distinct(LineNames(r.value.ingredients))
              && LineNames(r.value.ingredients) == FirstSeen(Names(ss))
              && (forall k :: 0 <= k < |r.value.ingredients| ==>
                    r.value.ingredients[k].quantity == Total(ss, r.value.ingredients[k].name))
              && r.value.cookTime == FirstCost(ss)
  {
    var recipe := FindRecipe(recipes, name).value;
    var expansion := Sightings(recipes, ingredients, recipe.requiredItems, 1, fuel);
    if expansion.Success? {
      FeedAccounts(expansion.value);
      FirstSeenProperties(Names(expansion.value));
    }
  }

  // ---------------------------------------------------------------------------
  // Failure, depth and scaling
  // ---------------------------------------------------------------------------

  /** An item that cannot be resolved, at any depth below it, makes the whole
      expansion fail: there is no partial result. */
  lemma {:induction false} FailingItemFails(recipes: seq<Recipe>, ingredients: seq<Ingredient>,
                                            items: seq<RequiredItem>, i: nat, mult: int, fuel: nat)
    requires i < |items|
    requires ItemSightings(recipes, ingredients, items[i], mult, fuel).Failure?
    ensures Sightings(recipes, ingredients, items, mult, fuel).Failure?
  {
    if i > 0 {
      assert items[1..][i - 1] == items[i];
      FailingItemFails(recipes, ingredients, items[1..], i - 1, mult, fuel);
    }
  }

  /** A recipe that requires a name registered as neither kind has no summary. */
  lemma MissingItemFailsSummary(recipes: seq<Recipe>, ingredients: seq<Ingredient>, name: string, fuel: nat, i: nat)
    requires HasRecipe(recipes, name)
    requires i < |FindRecipe(recipes, name).value.requiredItems|
    requires var missing := FindRecipe(recipes, name).value.requiredItems[i].name;
             !HasRecipe(recipes, missing) && !HasIngredient(ingredients, missing)
    ensures Summarize(recipes, ingredients, name, fuel).Failure?
  {
    var items := FindRecipe(recipes, name).value.requiredItems;
    FailingItemFails(recipes, ingredients, items, i, 1, fuel);
  }

  lemma {:induction false} SightingsFuelMonotone(recipes: seq<Recipe>, ingredients: seq<Ingredient>,
                                                 items: seq<RequiredItem>, mult: int, fuel: nat, more: nat)
    requires fuel <= more
    requires Sightings(recipes, ingredients, items, mult, fuel) != Failure(DepthExceeded)
    ensures Sightings(recipes, ingredients, items, mult, more) == Sightings(recipes, ingredients, items, mult, fuel)
    decreases fuel, |items|
  {
    if items != [] {
      var head := ItemSightings(recipes, ingredients, items[0], mult, fuel);
      ItemFuelMonotone(recipes, ingredients, items[0], mult, fuel, more);
      if head.Success? {
        SightingsFuelMonotone(recipes, ingredients, items[1..], mult, fuel, more);
      }
    }
  }

  lemma {:induction false} ItemFuelMonotone(recipes: seq<Recipe>, ingredients: seq<Ingredient>,
                                            item: RequiredItem, mult: int, fuel: nat, more: nat)
    requires fuel <= more
    requires ItemSightings(recipes, ingredients, item, mult, fuel) != Failure(DepthExceeded)
    ensures ItemSightings(recipes, ingredients, item, mult, more) == ItemSightings(recipes, ingredients, item, mult, fuel)
    decreases fuel, 0
  {
    match FindRecipe(recipes, item.name)
    case Some(recipe) =>
      SightingsFuelMonotone(recipes, ingredients, recipe.requiredItems, mult * item.quantity, fuel - 1, more - 1);
    case None =>
  }

  /** More depth never changes a summary that did not run out of depth: once
      a bound lets a summary through, every larger bound gives that same
      summary. */
  lemma SummarizeFuelMonotone(recipes: seq<Recipe>, ingredients: seq<Ingredient>, name: string, fuel: nat, more: nat)
    requires fuel <= more
    requires Summarize(recipes, ingredients, name, fuel) != Failure(DepthExceeded)
    ensures Summarize(recipes, ingredients, name, more) == Summarize(recipes, ingredients, name, fuel)
  {
    if HasRecipe(recipes, name) {
      var recipe := FindRecipe(recipes, name).value;
      SightingsFuelMonotone(recipes, ingredients, recipe.requiredItems, 1, fuel, more);
    }
  }

  /** Every base ingredient the expansion meets is a registered ingredient,
      with its registered cook time: the source appends only what it found
      in the cookbook's ingredients. */
  lemma {:induction false} SightingsRegistered(recipes: seq<Recipe>, ingredients: seq<Ingredient>,
                                               items: seq<RequiredItem>, mult: int, fuel: nat)
    ensures var r := Sightings(recipes, ingredients, items, mult, fuel);
            r.Success? ==> Registered(r.value, ingredients)
    decreases fuel, |items|
  {
    if items != [] {
      var head := ItemSightings(recipes, ingredients, items[0], mult, fuel);
      var tail := Sightings(recipes, ingredients, items[1..], mult, fuel);
      ItemRegistered(recipes, ingredients, items[0], mult, fuel);
      SightingsRegistered(recipes, ingredients, items[1..], mult, fuel);
      if head.Success? && tail.Success? {
        forall s | s in head.value + tail.value ensures Ingredient(s.name, s.cookTime) in ingredients {
          assert s in head.value || s in tail.value;
        }
      }
    }
  }

  lemma {:induction false} ItemRegistered(recipes: seq<Recipe>, ingredients: seq<Ingredient>,
                                          item: RequiredItem, mult: int, fuel: nat)
    ensures var r := ItemSightings(recipes, ingredients, item, mult, fuel);
            r.Success? ==> Registered(r.value, ingredients)
    decreases fuel, 0
  {
    match FindRecipe(recipes, item.name)
    case Some(recipe) =>
      if fuel > 0 {
        SightingsRegistered(recipes, ingredients, recipe.requiredItems, mult * item.quantity, fuel - 1);
      }
    case None =>
      if HasIngredient(ingredients, item.name) {
        var g := FindIngredient(ingredients, item.name).value;
        assert g in ingredients;
      }
  }

  /** Every sighting's quantity multiplied by `k`. */
  function Scale(x: Expansion, k: int): Expansion
  {
    match x
    case Failure(e) => Failure(e)
    case Success(ss) => Success(seq(|ss|, i requires 0 <= i < |ss| => ss[i].(quantity := ss[i].quantity * k)))
  }

  lemma ScaleJoin(x: Expansion, y: Expansion, k: int)
    ensures Scale(Join(x, y), k) == Join(Scale(x, k), Scale(y, k))
  {
    if x.Success? && y.Success? {
      assert Scale(Join(x, y), k).value == Scale(x, k).value + Scale(y, k).value;
    }
  }

  lemma {:induction false} SightingsScale(recipes: seq<Recipe>, ingredients: seq<Ingredient>,
                                          items: seq<RequiredItem>, mult: int, k: int, fuel: nat)
    ensures Sightings(recipes, ingredients, items, mult * k, fuel) == Scale(Sightings(recipes, ingredients, items, mult, fuel), k)
    decreases fuel, |items|
  {
    if items != [] {
      ItemScale(recipes, ingredients, items[0], mult, k, fuel);
      SightingsScale(recipes, ingredients, items[1..], mult, k, fuel);
      ScaleJoin(ItemSightings(recipes, ingredients, items[0], mult, fuel),
                Sightings(recipes, ingredients, items[1..], mult, fuel), k);
    } else {
      var none: seq<Sighting> := [];
      assert Scale(Success(none), k).value == none;
    }
  }

  lemma {:induction false} ItemScale(recipes: seq<Recipe>, ingredients: seq<Ingredient>,
                                     item: RequiredItem, mult: int, k: int, fuel: nat)
    ensures ItemSightings(recipes, ingredients, item, mult * k, fuel) == Scale(ItemSightings(recipes, ingredients, item, mult, fuel), k)
    decreases fuel, 0
  {
    match FindRecipe(recipes, item.name)
    case Some(recipe) =>
      if fuel > 0 {
        assert mult * k * item.quantity == mult * item.quantity * k;
        SightingsScale(recipes, ingredients, recipe.requiredItems, mult * item.quantity, k, fuel - 1);
      }
    case None =>
      if HasIngredient(ingredients, item.name) {
        var g := FindIngredient(ingredients, item.name).value;
        assert item.quantity * (mult * k) == item.quantity * mult * k;
        var one := [Sighting(g.name, g.cookTime, item.quantity * mult)];
        assert Scale(Success(one), k).value == [Sighting(g.name, g.cookTime, item.quantity * (mult * k))];
      }
  }

  /** Expanding `k` units of a list of items is expanding one unit and
      multiplying every quantity met by `k`. */
  lemma ExpansionIsLinear(recipes: seq<Recipe>, ingredients: seq<Ingredient>,
                          items: seq<RequiredItem>, k: int, fuel: nat)
    ensures Sightings(recipes, ingredients, items, k, fuel) == Scale(Sightings(recipes, ingredients, items, 1, fuel), k)
  {
    SightingsScale(recipes, ingredients, items, 1, k, fuel);
  }

  // Cake needs two Eggs (cook time 2) and one Batter, a recipe of three
  // Flour (cook time 1).
  const Cake := Recipe("Cake", [RequiredItem("Eggs", 2), RequiredItem("Batter", 1)])
  const Batter := Recipe("Batter", [RequiredItem("Flour", 3)])
  const CakeRecipes := [Cake, Batter]
  const CakeIngredients := [Ingredient("Eggs", 2), Ingredient("Flour", 1)]

  lemma CakeLookups()
    ensures FindRecipe(CakeRecipes, "Cake") == Some(Cake)
    ensures FindRecipe(CakeRecipes, "Batter") == Some(Batter)
    ensures FindRecipe(CakeRecipes, "Eggs") == None
    ensures FindRecipe(CakeRecipes, "Flour") == None
    ensures FindIngredient(CakeIngredients, "Eggs") == Some(Ingredient("Eggs", 2))
    ensures FindIngredient(CakeIngredients, "Flour") == Some(Ingredient("Flour", 1))
  {
    assert RecipeNames(CakeRecipes) == ["Cake", "Batter"];
    assert IngredientNames(CakeIngredients) == ["Eggs", "Flour"];
  }

  /** Eggs are met first, two of them; then Batter expands to three Flour. */
  lemma CakeSightings()
    ensures Sightings(CakeRecipes, CakeIngredients, Cake.requiredItems, 1, 1)
            == Success([Sighting("Eggs", 2, 2), Sighting("Flour", 1, 3)])
  {
    CakeLookups();
    var eggs, flour := Sighting("Eggs", 2, 2), Sighting("Flour", 1, 3);
    assert ItemSightings(CakeRecipes, CakeIngredients, RequiredItem("Eggs", 2), 1, 1) == Success([eggs]);
    assert ItemSightings(CakeRecipes, CakeIngredients, RequiredItem("Flour", 3), 1, 0) == Success([flour]);
    assert Sightings(CakeRecipes, CakeIngredients, Batter.requiredItems, 1, 0) == Success([flour]) by {
      assert Batter.requiredItems[1..] == [];
      assert [flour] + [] == [flour];
    }
    assert ItemSightings(CakeRecipes, CakeIngredients, RequiredItem("Batter", 1), 1, 1) == Success([flour]);
    assert Sightings(CakeRecipes, CakeIngredients, Cake.requiredItems[1..], 1, 1) == Success([flour]) by {
      assert Cake.requiredItems[1..][1..] == [];
    }
    assert [eggs] + [flour] == [eggs, flour];
  }

  /** Eggs cost 2*2 and Flour 3*1: 7, Eggs listed before Flour. */
  lemma CakeFeed()
    ensures Feed(Totals(0, []), [Sighting("Eggs", 2, 2), Sighting("Flour", 1, 3)])
            == Totals(7, [Line("Eggs", 2), Line("Flour", 3)])
  {
    var eggs, flour := Sighting("Eggs", 2, 2), Sighting("Flour", 1, 3);
    var afterEggs := Add(Totals(0, []), eggs);
    assert afterEggs == Totals(4, [Line("Eggs", 2)]);
    assert FindLine(afterEggs.lines, "Flour") == None;
    assert Add(afterEggs, flour) == Totals(7, [Line("Eggs", 2), Line("Flour", 3)]);
    assert [eggs, flour][1..] == [flour] && [flour][1..] == [];
    var done := Totals(7, [Line("Eggs", 2), Line("Flour", 3)]);
    assert Feed(done, []) == done;
    assert Feed(afterEggs, [flour]) == done;
  }

  lemma CakeExample()
    ensures Summarize([Recipe("Cake", [RequiredItem("Eggs", 2), RequiredItem("Batter", 1)]),
                       Recipe("Batter", [RequiredItem("Flour", 3)])],
                      [Ingredient("Eggs", 2), Ingredient("Flour", 1)], "Cake", 1)
            == Success(RecipeSummary("Cake", 7, [Line("Eggs", 2), Line("Flour", 3)]))
  {
    CakeLookups();
    CakeSightings();
    CakeFeed();
  }
}
