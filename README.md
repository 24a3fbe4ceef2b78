# Recipe box: the in-memory recipe collection

This project models the core of the recipe-box REST API: the in-memory
recipe collection of `backend/server.js` and the five request handlers that
read and change it.

- **Search** (`GET /recipes?q=`) returns the whole collection when `q` is
  missing or empty. Otherwise it keeps, in storage order, each recipe whose
  lower-cased title, or some lower-cased ingredient name, contains the
  lower-cased query.
- **Get by id** returns the first recipe carrying the id, or *Recipe not found*.
- **Create** refuses a falsy title with *Title is required*. Otherwise it builds
  a record with a fresh id and the create handler's defaults for falsy properties,
  and appends it.
- **Update** finds the recipe's slot and merges the body into it property by
  property with JavaScript's `||`. `isFavorite` is applied whenever the body
  has it. A supplied ingredients array replaces the stored one. The merged
  record is written back into the same slot.
- **Delete** filters out every recipe carrying the id. It reports success
  exactly when the collection shrank.

Files and modules:

- `js_values.dfy` (`JsValues`): request-body properties (missing, `null`, or a
  value), stored nullable values, JavaScript truthiness and `||`.
- `text.dfy` (`Text`): ASCII `toLowerCase` and `includes`.
- `recipes.dfy` (`Recipes`): the Recipe and Ingredient records, the request
  bodies, and the two record builders, `NewRecipe` for create and `Merge` for
  update.
- `queries.dfy` (`Queries`): the search filter, `findIndex`/`find`, the delete
  filter, and the id predicates the collection's invariant uses.
- `store.dfy` (`Store`): the class `RecipeStore`. It owns the collection as a
  `seq<Recipe>` field, with one method per handler. Its invariant `Valid()`
  says that recipe ids are unique and that every id is shorter than the id
  generator's next id, which is at least 1 long. `CreateGetDeleteScenario` replays the API's delete test
  (create, get, delete, get, delete) using only the handlers' contracts.

How the foreign pieces are modelled:

- **uuid**: the store's own generator. It issues an id longer than every id
  the collection holds, so a generated id is never in use. Create states that
  the new recipe's id is as long as the generator's state before the call, and
  that state only grows, so no id is issued twice, even after a delete
  (`DeletedIdNotReissued`). The generator starts at length 1, so no id is empty.
- **`new Date()`**: a `now: Time` argument.
- **`toLowerCase`**: ASCII lower-casing.

Where the code's behaviour may surprise a reader, the model follows the code:

- The merge keeps the quirk that a falsy value cannot be stored: `prepTime: 0`,
  `title: ""` and `description: ""` all keep the old value
  (`MergeIgnoresFalsyValues`).
- `difficulty` and `rating` are stored as given, with no check of their values.
- A supplied ingredient `id` is kept even when it is the empty string. The
  update handler's `ing.id || uuidv4()` is overwritten by the `...ing` spread
  that follows it whenever the `id` key is present. So update and create
  resolve ingredient ids the same way.

## Model

| member | source | states |
|---|---|---|
| `Text.Lower` | backend/server.js:88 | `toLowerCase` on ASCII: same length, each character lower-cased, nothing else changed |
| `Text.LowerIdempotent` | backend/server.js:88-92 | lower-casing an already lower-cased string changes nothing |
| `Text.Contains` | backend/server.js:91-92 | `includes`: a contained string is never longer than the one containing it, and the empty string is contained in every string |
| `Text.ContainsIffOccurs` | backend/server.js:91-92 | `includes` holds exactly when the needle occurs at some position of the haystack |
| `Recipes.NewRecipe` | backend/server.js:132-150 | the created record carries the fresh id and the given title; `imageUrl` is null; `createdAt` equals `updatedAt`, both the clock reading; `isFavorite` is a boolean |
| `Recipes.CreateDefaults` | backend/server.js:132-150 | when only the title is truthy, the record is exactly the create handler's default record (times 0, servings 1, "easy", "lunch", empty lists, null description, notes and rating, not favourite) |
| `Recipes.CreateIsMergeOntoDefaults` | backend/server.js:132-150 | create equals update applied to the default record, unless `isFavorite` is `null`: truthy properties override, falsy ones keep the default |
| `Recipes.Merge` | backend/server.js:178-196 | update keeps `id`, `imageUrl` and `createdAt`, and sets `updatedAt` to the clock reading |
| `Recipes.MergeFieldwise` | backend/server.js:180-193 | each merged property takes the body's value when it is truthy and keeps the stored one otherwise; arrays, even empty ones, always replace |
| `Recipes.MergeFavorite` | backend/server.js:194 | `isFavorite` is applied whenever it is not undefined: `false` clears a stored `true`, `null` is stored as `null` |
| `Recipes.MergeNothing` | backend/server.js:178-196 | an update body with no properties changes only `updatedAt` |
| `Recipes.MergeIgnoresFalsyValues` | backend/server.js:180-182 | `prepTime: 0`, `title: ""` and `description: ""` leave the stored values unchanged |
| `Recipes.MergeIdempotent` | backend/server.js:178-196 | merging the same body with the same resolved ingredient list twice at the same time gives the same record as merging it once |
| `Queries.Filter` | backend/server.js:89-93 | the search filter never returns more recipes than the collection holds, and every recipe it returns matches the term |
| `Queries.Search` | backend/server.js:84-94 | search never returns more recipes than the collection holds; with a non-empty query every returned recipe matches the lower-cased query |
| `Queries.FilterMembers` | backend/server.js:89-93 | a recipe is in the filtered list exactly when it is in the collection and its title or some ingredient name matches |
| `Queries.FilterIsSubsequence` | backend/server.js:89-93 | the filtered list is an order-preserving subsequence of the collection |
| `Queries.SearchWithoutQuery` | backend/server.js:84-87 | with a missing or empty query, search returns the collection exactly as stored |
| `Queries.SearchWithQuery` | backend/server.js:87-94 | with a non-empty query, search returns, in storage order, exactly the recipes whose lower-cased title or some lower-cased ingredient name contains the lower-cased query |
| `Queries.SearchCaseInsensitive` | backend/server.js:88-92 | two queries that lower-case alike give the same result |
| `Queries.SearchLowerQuery` | backend/server.js:88 | a query and its lower-cased form give the same result |
| `Queries.SearchTitleExample` | backend/__tests__/api.test.js:197-206 | the query "CAKE" returns the "Unique Cake" recipe and not the "Unique Pie" recipe |
| `Queries.FindIndex` | backend/server.js:175 | the result is the first index whose recipe has the id, or -1 exactly when no recipe has it |
| `Queries.Find` | backend/server.js:101 | `find` returns a recipe of the collection carrying the id, and returns nothing exactly when no recipe carries it |
| `Queries.FindFirst` | backend/server.js:101-107 | `find` returns the first recipe with the id, and returns nothing exactly when no recipe has it |
| `Queries.RemoveId` | backend/server.js:208 | the delete filter keeps exactly the recipes whose id differs and never grows the list |
| `Queries.RemoveIdIsSubsequence` | backend/server.js:208 | the recipes left after a delete keep their order |
| `Queries.RemoveIdShrinks` | backend/server.js:207-214 | the list shrinks exactly when some recipe has the id; otherwise it is unchanged |
| `Queries.FindAfterRemove` | backend/server.js:205-215 | after the delete filter, looking the id up finds nothing |
| `Queries.LongIdNotInUse` | backend/server.js:133 | an id at least as long as the collection's id bound belongs to no recipe or ingredient |
| `Queries.UniqueAfterAppend` | backend/server.js:152 | appending a recipe whose id is not in use keeps recipe ids unique |
| `Queries.UniqueAfterReplace` | backend/server.js:197 | writing a record with the same id into a slot keeps recipe ids unique |
| `Queries.UniqueAfterRemove` | backend/server.js:208 | the delete filter keeps recipe ids unique |
| `Queries.FindAppended` | backend/server.js:152 | a recipe appended under an unused id is what looking that id up returns |
| `Queries.FindReplaced` | backend/server.js:197 | the record written into the slot `findIndex` chose is what looking the id up returns |
| `Store.Message` | backend/server.js:106 | the not-found message is "Recipe not found" and the validation message (line 129) is "Title is required" |
| `Store.RecipeStore.constructor` | backend/server.js:9-73 | the store starts from a given collection with unique ids and satisfies its invariant |
| `Store.RecipeStore.NewId` | backend/server.js:133 | `uuidv4()` returns an id that no recipe or ingredient of the collection carries |
| `Store.RecipeStore.ResolveIngredientIds` | backend/server.js:144 | one ingredient per input, in order, with the input's fields; a supplied id is kept; a generated id is not in use and differs from the other generated ids |
| `Store.RecipeStore.Search` | backend/server.js:83-96 | returns the search result without changing the collection; with no query it is the collection itself; it is always an order-preserving subsequence |
| `Store.RecipeStore.GetById` | backend/server.js:99-108 | returns the first recipe with the id, or NotFound exactly when no recipe has it; the collection is unchanged |
| `Store.RecipeStore.Create` | backend/server.js:111-154 | a falsy title gives TitleRequired and changes nothing; otherwise the built record, with an unused id and freshly resolved ingredient ids that differ from the recipe's id, is appended under a non-empty id as long as the generator's state before the call, the invariant holds, the id generator never goes back, and getting its id returns it |
| `Store.RecipeStore.Update` | backend/server.js:157-202 | an unknown id gives NotFound and changes nothing; otherwise only the slot `findIndex` chose is replaced, by the merged record, the id generator never goes back, and getting the id returns it |
| `Store.RecipeStore.Delete` | backend/server.js:205-215 | the collection becomes the delete filter's result; success exactly when it shrank, which is exactly when some recipe had the id; NotFound leaves it unchanged; afterwards the id is not found |

## Left out

- HTTP routing, JSON parsing and serialisation, CORS, status codes and `app.listen` (backend/server.js:1-7, 75-80, 217-223). These are I/O. Handler results are a `Result` datatype, and `Message` gives the error bodies' text.
- The two sample recipes the server starts with are data. The constructor stands for the module's start-up state and takes any initial collection with unique ids.
- The `module.exports.recipes` export (backend/server.js:226) is test plumbing.
- `uuidv4()` is replaced by the store's deterministic generator. Real uuids are unique with high probability; this one is unique by construction.
- Create calls `uuidv4()` for every ingredient even when the spread then overrides the id. The model generates ids only where they are kept. Only the generator's state differs.
- `new Date()` is read twice in create; the model uses one reading, so `createdAt` equals `updatedAt`. Serialising a date to an ISO string is left out.
- `toLowerCase` handles ASCII letters only; Unicode case mapping is left out.
- Body properties of another JSON type than expected are not modelled, for example a numeric title or a string `prepTime`. Search would throw on a non-string title.
- JSON numbers are modelled as integers, so a fractional value such as `rating: 4.5` or `servings: 1.5` is not represented. Truthiness is unaffected: the only falsy number JSON can carry is 0.
- An ingredient object with `id: null`, with missing `name`, `amount`, `unit` or `order`, or with extra properties is not modelled. Every ingredient input carries those four fields and either has an `id` string or no `id` key.
- A query string given twice (`q` becomes an array and `toLowerCase` throws) is not modelled; `q` is a string or missing.
- Recipes.MergeIdempotent: covers the merge only. Two identical PUTs are not idempotent when an ingredient in the body lacks an `id`, because each PUT draws a fresh uuid for it (backend/server.js:190).
- Ingredient ids are not proved unique across the collection, because a body may supply the same id twice. Only generated ids are fresh.
- The frontend (components, search debounce, API client), the eslint configurations and the test files are outside the core.
