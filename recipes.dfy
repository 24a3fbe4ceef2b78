/**
 * The recipe and ingredient records, the bodies the create and update
 * handlers read, and the two record builders: the new record built by
 * create (backend/server.js:132-150) and the field-by-field merge built by
 * update (backend/server.js:178-196).
 */
module Recipes {
  import opened JsValues

  /** A reading of the server clock (`new Date()`). */
  type Time = int

  datatype Ingredient = Ingredient(id: string, name: string, amount: string, unit: string, order: int)

  datatype Recipe = Recipe(
    id: string,
    title: string,
    description: Nullable<string>,
    imageUrl: Nullable<string>,
    prepTime: int,
    cookTime: int,
    servings: int,
    difficulty: string,
    category: string,
    tags: seq<string>,
    rating: Nullable<int>,
    ingredients: seq<Ingredient>,
    instructions: seq<string>,
    notes: Nullable<string>,
    isFavorite: Nullable<bool>,
    createdAt: Time,
    updatedAt: Time)

  /** An ingredient object of a request body; `id` is `None` when the object has no `id` key. */
  datatype IngredientInput = IngredientInput(id: Option<string>, name: string, amount: string, unit: string, order: int)

  /** The thirteen properties the create and update handlers take from the request body. */
  datatype RecipeInput = RecipeInput(
    title: Field<string>,
    description: Field<string>,
    prepTime: Field<int>,
    cookTime: Field<int>,
    servings: Field<int>,
    difficulty: Field<string>,
    category: Field<string>,
    tags: Field<seq<string>>,
    ingredients: Field<seq<IngredientInput>>,
    instructions: Field<seq<string>>,
    notes: Field<string>,
    isFavorite: Field<bool>,
    rating: Field<int>)

  /** A body that supplies none of the properties. */
  const NoFields := RecipeInput(Undefined, Undefined, Undefined, Undefined, Undefined, Undefined,
                                Undefined, Undefined, Undefined, Undefined, Undefined, Undefined, Undefined)

  /**
   * `{ id: <fresh>, ...ing }`: the spread copies every property of the input
   * object, so a supplied `id` key wins over the generated one.
   */
  predicate IngredientFrom(input: IngredientInput, g: Ingredient) {
    && g.name == input.name
    && g.amount == input.amount
    && g.unit == input.unit
    && g.order == input.order
    && (input.id.Some? ==> g.id == input.id.value)
  }

  /** The `ingredients.map(...)` result: one ingredient per input, in order. */
  predicate IngredientsFrom(inputs: seq<IngredientInput>, out: seq<Ingredient>) {
    |out| == |inputs| && forall i :: 0 <= i < |inputs| ==> IngredientFrom(inputs[i], out[i])
  }

  /** True when every property the create handler defaults is falsy in `input`. */
  predicate OnlyTitle(input: RecipeInput) {
    && !TruthyString(input.description)
    && !TruthyNumber(input.prepTime)
    && !TruthyNumber(input.cookTime)
    && !TruthyNumber(input.servings)
    && !TruthyString(input.difficulty)
    && !TruthyString(input.category)
    && !TruthyArray(input.tags)
    && !TruthyArray(input.ingredients)
    && !TruthyArray(input.instructions)
    && !TruthyString(input.notes)
    && !TruthyBool(input.isFavorite)
    && !TruthyNumber(input.rating)
  }

  /** The record create builds when the body carries nothing but a title: the create handler's defaults. */
  function DefaultRecipe(title: string, id: string, now: Time): Recipe {
    Recipe(
      id := id,
      title := title,
      description := Null,
      imageUrl := Null,
      prepTime := 0,
      cookTime := 0,
      servings := 1,
      difficulty := "easy",
      category := "lunch",
      tags := [],
      rating := Null,
      ingredients := [],
      instructions := [],
      notes := Null,
      isFavorite := NonNull(false),
      createdAt := now,
      updatedAt := now)
  }

  /**
   * The record the create handler builds from a body whose title is truthy.
   * `id` is the freshly generated id and `resolved` the body's ingredients
   * with their ids resolved (used only when the body has an ingredients array).
   */
  function NewRecipe(input: RecipeInput, id: string, resolved: seq<Ingredient>, now: Time): (r: Recipe)
    requires TruthyString(input.title)
    ensures r.id == id && r.title == input.title.value
    ensures r.imageUrl == Null
    ensures r.createdAt == now && r.updatedAt == now
    ensures r.isFavorite.NonNull?
  {
    Recipe(
      id := id,
      title := input.title.value,
      description := StringOrNullable(input.description, Null),
      imageUrl := Null,
      prepTime := NumberOr(input.prepTime, 0),
      cookTime := NumberOr(input.cookTime, 0),
      servings := NumberOr(input.servings, 1),
      difficulty := StringOr(input.difficulty, "easy"),
      category := StringOr(input.category, "lunch"),
      tags := ArrayOr(input.tags, []),
      rating := NumberOrNullable(input.rating, Null),
      ingredients := if TruthyArray(input.ingredients) then resolved else [],
      instructions := ArrayOr(input.instructions, []),
      notes := StringOrNullable(input.notes, Null),
      isFavorite := NonNull(BoolOr(input.isFavorite, false)),
      createdAt := now,
      updatedAt := now)
  }

  /**
   * The record the update handler writes back: `{ ...stored, field: input || stored.field, ... }`.
   * `id`, `imageUrl` and `createdAt` are not among the merged properties and
   * survive through the spread; `updatedAt` is the clock reading.
   */
  function Merge(stored: Recipe, input: RecipeInput, resolved: seq<Ingredient>, now: Time): (r: Recipe)
    ensures r.id == stored.id && r.imageUrl == stored.imageUrl && r.createdAt == stored.createdAt
    ensures r.updatedAt == now
  {
    stored.(
      title := StringOr(input.title, stored.title),
      description := StringOrNullable(input.description, stored.description),
      prepTime := NumberOr(input.prepTime, stored.prepTime),
      cookTime := NumberOr(input.cookTime, stored.cookTime),
      servings := NumberOr(input.servings, stored.servings),
      difficulty := StringOr(input.difficulty, stored.difficulty),
      category := StringOr(input.category, stored.category),
      tags := ArrayOr(input.tags, stored.tags),
      rating := NumberOrNullable(input.rating, stored.rating),
      ingredients := if TruthyArray(input.ingredients) then resolved else stored.ingredients,
      instructions := ArrayOr(input.instructions, stored.instructions),
      notes := StringOrNullable(input.notes, stored.notes),
      isFavorite := UnlessUndefined(input.isFavorite, stored.isFavorite),
      updatedAt := now)
  }

  /** A body with a truthy title and nothing else truthy yields exactly the create handler's defaults. */
  lemma CreateDefaults(input: RecipeInput, id: string, resolved: seq<Ingredient>, now: Time)
    requires TruthyString(input.title) && OnlyTitle(input)
    ensures NewRecipe(input, id, resolved, now) == DefaultRecipe(input.title.value, id, now)
  {
  }

  /**
   * Create is update applied to the default record: every property the body
   * makes truthy overrides the default, every falsy one leaves it. The one
   * exception is `isFavorite: null`, which create turns into `false` and
   * update would store as `null`.
   */
  lemma CreateIsMergeOntoDefaults(input: RecipeInput, id: string, resolved: seq<Ingredient>, now: Time)
    requires TruthyString(input.title) && !input.isFavorite.NullValue?
    ensures NewRecipe(input, id, resolved, now) == Merge(DefaultRecipe(input.title.value, id, now), input, resolved, now)
  {
  }

  /** Each merged property takes the body's value when it is truthy and keeps the stored one otherwise. */
  lemma MergeFieldwise(stored: Recipe, input: RecipeInput, resolved: seq<Ingredient>, now: Time)
    ensures var r := Merge(stored, input, resolved, now);
      && (TruthyString(input.title) ==> r.title == input.title.value)
      && (!TruthyString(input.title) ==> r.title == stored.title)
      && (TruthyString(input.description) ==> r.description == NonNull(input.description.value))
      && (!TruthyString(input.description) ==> r.description == stored.description)
      && (TruthyNumber(input.prepTime) ==> r.prepTime == input.prepTime.value)
      && (!TruthyNumber(input.prepTime) ==> r.prepTime == stored.prepTime)
      && (TruthyNumber(input.cookTime) ==> r.cookTime == input.cookTime.value)
      && (!TruthyNumber(input.cookTime) ==> r.cookTime == stored.cookTime)
      && (TruthyNumber(input.servings) ==> r.servings == input.servings.value)
      && (!TruthyNumber(input.servings) ==> r.servings == stored.servings)
      && (TruthyString(input.difficulty) ==> r.difficulty == input.difficulty.value)
      && (!TruthyString(input.difficulty) ==> r.difficulty == stored.difficulty)
      && (TruthyString(input.category) ==> r.category == input.category.value)
      && (!TruthyString(input.category) ==> r.category == stored.category)
      && (input.tags.Given? ==> r.tags == input.tags.value)
      && (!input.tags.Given? ==> r.tags == stored.tags)
      && (TruthyNumber(input.rating) ==> r.rating == NonNull(input.rating.value))
      && (!TruthyNumber(input.rating) ==> r.rating == stored.rating)
      && (input.ingredients.Given? ==> r.ingredients == resolved)
      && (!input.ingredients.Given? ==> r.ingredients == stored.ingredients)
      && (input.instructions.Given? ==> r.instructions == input.instructions.value)
      && (!input.instructions.Given? ==> r.instructions == stored.instructions)
      && (TruthyString(input.notes) ==> r.notes == NonNull(input.notes.value))
      && (!TruthyString(input.notes) ==> r.notes == stored.notes)
  {
  }

  /**
   * `isFavorite` is applied whenever the body has the key: `false` clears a
   * stored `true`, and an explicit `null` is stored as `null`.
   */
  lemma MergeFavorite(stored: Recipe, input: RecipeInput, resolved: seq<Ingredient>, now: Time)
    ensures var r := Merge(stored, input, resolved, now);
      && (input.isFavorite.Given? ==> r.isFavorite == NonNull(input.isFavorite.value))
      && (input.isFavorite.NullValue? ==> r.isFavorite == Null)
      && (input.isFavorite.Undefined? ==> r.isFavorite == stored.isFavorite)
  {
  }

  /** An update whose body supplies nothing changes only `updatedAt`. */
  lemma MergeNothing(stored: Recipe, resolved: seq<Ingredient>, now: Time)
    ensures Merge(stored, NoFields, resolved, now) == stored.(updatedAt := now)
  {
  }

  /**
   * Because the merge uses `||`, a falsy value in the body cannot be stored:
   * `prepTime: 0` keeps the old preparation time and `title: ""` or
   * `description: ""` keep the old text.
   */
  lemma MergeIgnoresFalsyValues(stored: Recipe, input: RecipeInput, resolved: seq<Ingredient>, now: Time)
    requires input.prepTime == Given(0) && input.title == Given("") && input.description == Given("")
    ensures var r := Merge(stored, input, resolved, now);
      r.prepTime == stored.prepTime && r.title == stored.title && r.description == stored.description
  {
  }

  /**
   * Merging the same body with the same resolved ingredient list twice at the
   * same time gives the same record as merging it once.
   */
  lemma MergeIdempotent(stored: Recipe, input: RecipeInput, resolved: seq<Ingredient>, now: Time)
    ensures var once := Merge(stored, input, resolved, now);
      Merge(once, input, resolved, now) == once
  {
  }
}
