# DevDonalds cookbook: a verified model

This project is a Dafny model of the cookbook service in
`backend/py_template/devdonalds.py`. It covers three operations.

- **Name normalisation** (`parse_handwriting`, behind `/parse`). A freeform
  recipe name is split into words on runs of space, `_` and `-`. Each word
  keeps only its letters and is title-cased, every word is followed by one
  space, and the result is stripped. An input with no word at all gives no
  name. The model is in `handwriting.dfy`:
  - the spec function `Normalize`;
  - the nested-loop method `ParseHandwriting`, proved equal to it;
  - lemmas on what the result looks like, among them that the name holds
    exactly the input's letters, in order, up to case.
- **Registration** (`create_entry`, behind `/entry`). The module-level
  `cookbook` dictionary holds two lists, recipes and ingredients. It is a
  `Cookbook` class whose `seq` fields `Register` appends to, in
  `store.dfy`. Its invariant `Valid` (names distinct within each list) is
  what `Register` keeps; the summary does not depend on it. A cook time of
  zero is accepted; only a negative one is refused. The entry datatypes and
  the first-match lookups (the source's list comprehensions followed by
  `[0]`) are in `entries.dfy`. All three lookups, over recipes, ingredients
  and dictionary lines, are one search, `FirstIndex`, over their names.
- **Summaries** (`summary` and `get_summary`, behind `/summary`). A recipe is
  expanded depth first into base ingredients. Quantities are scaled by the
  product of the quantities on the path. A result dictionary is filled in
  place: each new ingredient is appended and its cook time times its
  quantity is added; a repeated one only gains quantity. The model is in
  `resolver.dfy`:
  - the spec functions `Sightings`/`ItemSightings` (which base ingredients
    are met, in order, at what scaled quantity) and `Feed`/`Add` (how they
    are folded into the dictionary);
  - the in-place `Accumulator` class;
  - the methods `GetSummary`, `VisitItem` and `AddIngredient`, proved
    against those functions. The source's `get_summary` is one recursive
    function. The model splits it in three: `GetSummary` is the loop,
    `VisitItem` is the loop body for one item (it recurses into
    `GetSummary` for a sub-recipe), and `AddIngredient` is the rest of the
    body for an item that names no recipe;
  - lemmas that describe the result without the fold, and lemmas on
    failure, nesting depth and scaling.

### Behaviour kept as the code has it

- A word with no letters still adds a space. So `"!!! ---"` normalises to
  the empty name, not to "no name". `"a 1 b"` normalises to `"A  B"`, with
  two spaces.
- A repeated ingredient's cook time is counted only at its first sighting.
  Later sightings add quantity only.

### Defects in the code that the model corrects

- Line 99 appends a new ingredient to the recipes list, and the
  ingredients list stays empty. As written this has four effects:
  - the recipe lookups at lines 84, 110 and 126 find the ingredient;
  - line 84 refuses a later recipe of the same name;
  - line 96 never refuses a duplicate ingredient;
  - a summary that meets the ingredient takes it for a recipe and fails at
    line 124, where an ingredient has no `required_items`.

  `Store.Cookbook.Register` appends the ingredient to the ingredients
  instead. With that correction, lines 84 and 96 check names within each
  kind only. A recipe and an ingredient may then share a name, and a
  summary takes the recipe.
- Line 134 indexes a list with a string. The model updates the first
  matching line.
- An error at line 147 returns an error tuple that line 128 would store as
  the dictionary. The model aborts the whole summary with the first error.
- Line 116 reads `cookTime` from an ingredient, but the attribute is
  `cook_time`. The model answers with the cook time.
- Lines 80-81 keep `requiredItems` as raw JSON. The model takes it as
  parsed `RequiredItem`s.

## Model

| member | source | states |
|---|---|---|
| Handwriting.ParseHandwriting | backend/py_template/devdonalds.py:45-67 | the loop over the matched words and over each word's letters returns exactly `Normalize(recipeName)` |
| Handwriting.NormalizeNoneIff | backend/py_template/devdonalds.py:49-65 | no name is returned exactly when the input consists only of spaces, `_` and `-` (both directions) |
| Handwriting.NormalizeWellCased | backend/py_template/devdonalds.py:53-67 | a returned name has an upper-case letter at the start of each word, lower-case letters elsewhere, and no leading or trailing space |
| Handwriting.StripWellCased | backend/py_template/devdonalds.py:67 | stripping keeps a string well cased |
| Handwriting.SeparatorsInterchangeable | backend/py_template/devdonalds.py:48-49 | swapping a space, `_` or `-` for another of the three never changes the result |
| Handwriting.Normalize | backend/py_template/devdonalds.py:45-67 | a returned name holds only letters and spaces and neither starts nor ends with a space |
| Handwriting.Words | backend/py_template/devdonalds.py:49 | every word the pattern yields is non-empty and holds no separator |
| Handwriting.Split | backend/py_template/devdonalds.py:49 | continuing a word that holds no separator, every word produced is non-empty and holds no separator |
| Handwriting.WordsEmptyIff | backend/py_template/devdonalds.py:49 | the pattern yields no word exactly when the input is all separators |
| Handwriting.WordsOfRun | backend/py_template/devdonalds.py:49 | a non-empty run without separators is a single word |
| Handwriting.WordsAtSeparator | backend/py_template/devdonalds.py:49 | a separator splits the words of what precedes it from the words of what follows it |
| Handwriting.Letters | backend/py_template/devdonalds.py:53-54 | the filtered word has only letters and is no longer than the word |
| Handwriting.LettersOfChar | backend/py_template/devdonalds.py:53-54 | a single character is kept exactly when it is a letter |
| Handwriting.LettersAppend | backend/py_template/devdonalds.py:53-54 | filtering a concatenation filters each part and concatenates the results, so with `LettersOfChar` the filter keeps exactly the letters, in order |
| Handwriting.LettersOfLetters | backend/py_template/devdonalds.py:53-54 | a word made only of letters passes the filter unchanged |
| Handwriting.Upper | backend/py_template/devdonalds.py:57 | a letter becomes upper case; an upper-case letter and any non-letter are kept as they are |
| Handwriting.Lower | backend/py_template/devdonalds.py:59 | a letter becomes lower case; a lower-case letter and any non-letter are kept as they are |
| Handwriting.CaseRoundTrip | backend/py_template/devdonalds.py:56-59 | upper-casing then lower-casing a character gives its lower-case form, and the other way round its upper-case form: changing case keeps the letter |
| Handwriting.TitleCase | backend/py_template/devdonalds.py:56-59 | the length is kept; a letter becomes upper case at the start of the word and lower case anywhere else; each position holds the same letter as before, up to case |
| Handwriting.LetterStep | backend/py_template/devdonalds.py:53-59 | one more character of a word: a letter is appended, upper case if no letter came before it and lower case otherwise; any other character leaves the word as it was |
| Handwriting.TitleCaseSnoc | backend/py_template/devdonalds.py:56-59 | the next letter is upper-cased if it is the first one of the word, lower-cased otherwise |
| Handwriting.TitleCaseOfLower | backend/py_template/devdonalds.py:56-59 | title-casing a lower-case word changes only its first letter |
| Handwriting.Render | backend/py_template/devdonalds.py:61-62 | the rendering is empty exactly when there are no words (both directions), and holds only letters and spaces |
| Handwriting.RenderStep | backend/py_template/devdonalds.py:61-62 | one more word appends its title-cased letters and one space |
| Handwriting.RenderThree | backend/py_template/devdonalds.py:62 | three words render as their title-cased letters, each followed by one space |
| Handwriting.Strip | backend/py_template/devdonalds.py:67 | the result is the part of the input between its leading and its trailing spaces, and it neither starts nor ends with a space |
| Handwriting.TrimLeft | backend/py_template/devdonalds.py:67 | the result is a suffix of the input, only spaces were removed, and it does not start with a space |
| Handwriting.TrimRight | backend/py_template/devdonalds.py:67 | the result is a prefix of the input, only spaces were removed, and it does not end with a space |
| Handwriting.SplitLetters | backend/py_template/devdonalds.py:49 | the words the pattern yields hold all the input's letters, in order: only separators, which are not letters, fall between them |
| Handwriting.RenderLetters | backend/py_template/devdonalds.py:61-62 | the rendering holds the words' letters, in order and up to case; the spaces it adds are not letters |
| Handwriting.StripLetters | backend/py_template/devdonalds.py:67 | stripping removes no letter |
| Handwriting.NormalizeKeepsLetters | backend/py_template/devdonalds.py:45-67 | a returned name, lower-cased, has exactly the letters of the input, lower-cased, in the same order: no letter is invented, dropped or reordered |
| Handwriting.RhubarbPieExample | backend/py_template/devdonalds.py:45-67 | `"my_rhubarb-pie "` normalises to `"My Rhubarb Pie"` |
| Handwriting.NoLettersExample | backend/py_template/devdonalds.py:62-67 | `"!!! ---"` gives the empty name, not "no name" |
| Handwriting.DigitsExample | backend/py_template/devdonalds.py:53-54 | `"c4ke"` gives `"Cke"`: non-letters are dropped inside a word |
| Handwriting.DigitWordExample | backend/py_template/devdonalds.py:61-62 | `"a 1 b"` gives `"A  B"`: a word without letters still adds a space |
| Entries.FirstIndex | backend/py_template/devdonalds.py:126 | the index found holds the name and no earlier position does; there is no index exactly when the name does not occur (both directions) |
| Entries.FindRecipe | backend/py_template/devdonalds.py:126 | a recipe is found exactly when one has the name, and it is the first recipe with that name |
| Entries.FindIngredient | backend/py_template/devdonalds.py:138 | an ingredient is found exactly when one has the name, and it is the first ingredient with that name |
| Store.Cookbook.constructor | backend/py_template/devdonalds.py:31 | the cookbook starts with no recipes and no ingredients |
| Store.Cookbook.Register | backend/py_template/devdonalds.py:73-103 | an unknown type, a duplicate recipe name, a negative cook time (checked before the name) and a duplicate ingredient name are refused and leave the cookbook unchanged; otherwise the entry is appended to its own list and the other list is unchanged; names stay distinct within each kind |
| Resolver.Sightings | backend/py_template/devdonalds.py:124-129 | an expansion never fails with "entry not found" |
| Resolver.ItemSightings | backend/py_template/devdonalds.py:125-147 | one item's expansion never fails with "entry not found" |
| Resolver.SightingsRegistered | backend/py_template/devdonalds.py:137-145 | every base ingredient a successful expansion meets carries the name and cook time of a registered ingredient |
| Resolver.ItemRegistered | backend/py_template/devdonalds.py:137-145 | the same for one item: a base ingredient is taken only from the cookbook's ingredients |
| Resolver.Add | backend/py_template/devdonalds.py:131-145 | one sighting removes no line and adds at most one |
| Resolver.Feed | backend/py_template/devdonalds.py:124-145 | folding `n` sightings removes no line and adds at most `n` |
| Resolver.Accumulator.constructor | backend/py_template/devdonalds.py:114 | the dictionary starts with the recipe's name, cook time 0 and no ingredients |
| Resolver.FindLine | backend/py_template/devdonalds.py:132-133 | the index found is the first line with the name, and no index means no line has it |
| Resolver.Summarize | backend/py_template/devdonalds.py:108-120 | "not found" exactly when the name is neither a recipe nor an ingredient; a summary carries the name asked for; an ingredient's summary is given exactly when the name is an ingredient and not a recipe (both directions), with the cook time of the first ingredient of that name |
| Resolver.GetSummary | backend/py_template/devdonalds.py:123-148 | when the expansion succeeds, the dictionary afterwards is the old one with every sighting folded in order; otherwise the first error is returned; every listed name stays a registered ingredient |
| Resolver.VisitItem | backend/py_template/devdonalds.py:125-147 | one item: a sub-recipe recurses with the multiplier times the quantity; otherwise the item is added as a base ingredient; either way the dictionary afterwards is the old one with the item's sightings folded in, or the item's error is returned |
| Resolver.AddIngredient | backend/py_template/devdonalds.py:131-147 | an item that names no recipe: a listed name gains quantity; a new ingredient is appended with its cook time counted; otherwise the error names the item; every listed name stays a registered ingredient |
| Resolver.SummaryOf | backend/py_template/devdonalds.py:108-120 | answers exactly `Summarize` on the cookbook's lists |
| Resolver.RepeatStep | backend/py_template/devdonalds.py:132-135 | a name already listed only gains `quantity * multiplier` on its line; the cook time is unchanged |
| Resolver.NewIngredientStep | backend/py_template/devdonalds.py:138-145 | a new ingredient is appended with the scaled quantity, and its cook time times that quantity is added |
| Resolver.RecipeSummaryCharacterized | backend/py_template/devdonalds.py:113-148 | a recipe's summary lists each base ingredient once, in first-seen order, with the sum of its scaled quantities; the cook time sums each ingredient's cook time times its quantity at its first sighting; any error is the expansion's error |
| Resolver.RepeatSightingAddsQuantityOnly | backend/py_template/devdonalds.py:132-135 | one more sighting of a listed name leaves the names, their order and the cook time alone, and adds to that name's quantity only |
| Resolver.AddAccounts | backend/py_template/devdonalds.py:131-145 | one more sighting keeps the dictionary equal to the first-seen names, the summed quantities and the first-sighting cook time of all sightings so far |
| Resolver.FeedAccounts | backend/py_template/devdonalds.py:131-145 | folding from an empty dictionary gives the first-seen names, the summed quantities and the first-sighting cook time |
| Resolver.FirstSeenProperties | backend/py_template/devdonalds.py:132-144 | the ingredient names listed are distinct and are exactly the names met |
| Resolver.FailingItemFails | backend/py_template/devdonalds.py:146-147 | one item that cannot be resolved makes the whole expansion fail; there is no partial result |
| Resolver.MissingItemFailsSummary | backend/py_template/devdonalds.py:138-147 | a recipe requiring a name that is neither a recipe nor an ingredient has no summary |
| Resolver.SightingsFuelMonotone | backend/py_template/devdonalds.py:126-128 | allowing deeper nesting changes nothing unless the depth bound was hit |
| Resolver.SummarizeFuelMonotone | backend/py_template/devdonalds.py:113-128 | a summary found within a depth bound is the same under any larger bound |
| Resolver.ExpansionIsLinear | backend/py_template/devdonalds.py:128-143 | expanding at multiplier `k` is expanding at 1 with every quantity multiplied by `k` |
| Resolver.SightingsAppend | backend/py_template/devdonalds.py:124 | the items are expanded in order: the expansion of `a + b` is that of `a` then that of `b` |
| Resolver.FeedAppend | backend/py_template/devdonalds.py:124-145 | the dictionary is updated one sighting at a time, in order |
| Resolver.CakeExample | backend/py_template/devdonalds.py:108-148 | Cake (2 Eggs at cook time 2, and 1 Batter made of 3 Flour at cook time 1) summarises to cook time 7 with Eggs 2 then Flour 3 |

## Left out

- The HTTP layer is not modelled: Flask routing, JSON decoding and encoding, status codes and the response texts. Each failure is an error value instead.
- The payload defaults (`data.get(..., '')`) are not modelled: an absent type, name, cook time or item list. Registration takes an already-typed entry, so comparing a missing cook time with 0 cannot crash.
- Quantities are not validated: a required item's quantity may be any integer, as in the source.
- A duplicate recipe is refused with the same message as an unknown type. `DuplicateRecipe` is a separate error value, but the message is not modelled.
- Letters are the ASCII letters only: Unicode `isalpha`, `upper` and `lower` are not modelled. Stripping removes spaces only. The rendered string holds nothing but letters and spaces, so nothing else could be stripped.
- Resolver.Summarize: adds a nesting bound `fuel` and the error `DepthExceeded`. They stand in for Python's recursion limit and the `RecursionError` it raises, which a cyclic cookbook always reaches. No call stack is modelled. `SummarizeFuelMonotone` shows that the bound changes no answer it lets through.
- Resolver.GetSummary: carries the same `fuel` bound. Its promise is weaker than the source's by the `DepthExceeded` case.
- Resolver.VisitItem: carries the same `fuel` bound and can return the same `DepthExceeded` error.
- Resolver.Sightings: carries the same `fuel` bound and can return the same `DepthExceeded` error. `SightingsFuelMonotone` shows that more fuel changes no expansion that did not hit the bound.
- Resolver.ItemSightings: carries the same `fuel` bound and can return the same `DepthExceeded` error.
- Resolver.SummaryOf: carries the same `fuel` bound, passed in by the caller.
- Concurrent requests on the shared cookbook are not modelled: every operation runs alone.
