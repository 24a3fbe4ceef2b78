/**
 * The in-memory recipe collection (`let recipes = [...]`, backend/server.js:9)
 * and the five handlers that act on it, as a class owning the collection.
 * The `uuid` generator is modelled inside the class: it issues ids longer
 * than every id the collection holds, so a generated id is never in use.
 */
module Store {
  import opened JsValues
  import opened Recipes
  import opened Queries

  datatype Error = NotFound | TitleRequired

  datatype Result<+T> = Ok(value: T) | Err(error: Error)

  /** The `message` of the error body the handlers send. */
  function Message(e: Error): (m: string)
    ensures e.NotFound? <==> m == "Recipe not found"
    ensures e.TitleRequired? <==> m == "Title is required"
  {
    match e
    case NotFound => "Recipe not found"
    case TitleRequired => "Title is required"
  }

  /**
   * `out` is the mapped ingredient list: supplied ids are kept, and each
   * generated id is in use nowhere in `rs` and differs from the other
   * generated ones.
   */
  ghost predicate FreshlyResolved(inputs: seq<IngredientInput>, out: seq<Ingredient>, rs: seq<Recipe>) {
    && IngredientsFrom(inputs, out)
    && (forall i :: 0 <= i < |inputs| && inputs[i].id.None? ==> !IdInUse(rs, out[i].id))
    && (forall i, j :: 0 <= i < j < |inputs| && inputs[i].id.None? && inputs[j].id.None? ==>
          out[i].id != out[j].id)
  }

  class RecipeStore {
    /** The collection, in storage order. */
    var recipes: seq<Recipe>
    /** State of the id generator: every id of the collection is shorter than this. */
    var idFloor: nat

    ghost predicate Valid()
      reads this
    {
      UniqueIds(recipes) && IdsShorterThan(recipes, idFloor) && 1 <= idFloor
    }

    /** A collection holding `initial`, as the server starts with its sample recipes. */
    constructor (initial: seq<Recipe>)
      requires UniqueIds(initial)
      ensures Valid() && recipes == initial
    {
      recipes := initial;
      idFloor := Max(IdLengthBound(initial), 1);
    }

    /**
     * `uuidv4()`: an id no recipe or ingredient of the collection carries.
     * Ids are issued with strictly growing lengths, so none is issued twice,
     * and, as the generator starts at length 1, none is empty.
     */
    method NewId() returns (id: string)
      requires IdsShorterThan(recipes, idFloor)
      modifies this`idFloor
      ensures !IdInUse(recipes, id)
      ensures |id| == old(idFloor) && idFloor == old(idFloor) + 1
    {
      id := seq(idFloor, _ => '0');
      LongIdNotInUse(recipes, idFloor, id);
      idFloor := idFloor + 1;
    }

    /**
     * `ingredients.map((ing) => ({ id: uuidv4(), ...ing }))`: each ingredient
     * keeps a supplied id and otherwise gets a generated one, distinct from
     * every id in use and from the other generated ones.
     */
    method ResolveIngredientIds(inputs: seq<IngredientInput>) returns (out: seq<Ingredient>)
      requires IdsShorterThan(recipes, idFloor)
      modifies this`idFloor
      ensures FreshlyResolved(inputs, out, recipes)
      ensures forall i :: 0 <= i < |inputs| && inputs[i].id.None? ==> |out[i].id| >= old(idFloor)
      ensures old(idFloor) <= idFloor && forall g :: g in out ==> |g.id| < idFloor
    {
      out := [];
      var i := 0;
      while i < |inputs|
        invariant 0 <= i <= |inputs| && |out| == i
        invariant old(idFloor) <= idFloor
        invariant forall k :: 0 <= k < i ==> IngredientFrom(inputs[k], out[k])
        invariant forall k :: 0 <= k < i ==> |out[k].id| < idFloor
        invariant forall k :: 0 <= k < i && inputs[k].id.None? ==> |out[k].id| >= old(idFloor)
        invariant forall k, j :: 0 <= k < j < i && inputs[k].id.None? && inputs[j].id.None? ==>
          |out[k].id| < |out[j].id|
      {
        var input := inputs[i];
        var id;
        match input.id {
          case Some(given) =>
            id := given;
            if idFloor <= |given| {
              idFloor := |given| + 1;
            }
          case None =>
            id := NewId();
        }
        out := out + [Ingredient(id, input.name, input.amount, input.unit, input.order)];
        i := i + 1;
      }
      forall i | 0 <= i < |inputs| && inputs[i].id.None? ensures !IdInUse(recipes, out[i].id) {
        LongIdNotInUse(recipes, old(idFloor), out[i].id);
      }
    }

    /** GET /recipes?q=: the search result; the collection is only read. */
    method Search(q: Option<string>) returns (result: seq<Recipe>)
      ensures result == Queries.Search(recipes, q)
      ensures q.None? || q == Some("") ==> result == recipes
      ensures IsSubsequence(result, recipes)
    {
      result := Queries.Search(recipes, q);
      if q.Some? && q.value != "" {
        FilterIsSubsequence(recipes, Text.Lower(q.value));
      } else {
        SubsequenceOfItself(recipes);
      }
    }

    /** GET /recipes/:id: the first recipe carrying the id, or NotFound. */
    method GetById(id: string) returns (res: Result<Recipe>)
      ensures res.Ok? ==>
        exists k :: 0 <= k < |recipes| && res.value == recipes[k] && recipes[k].id == id &&
                    forall j :: 0 <= j < k ==> recipes[j].id != id
      ensures res.Err? ==> res.error == NotFound && forall j :: 0 <= j < |recipes| ==> recipes[j].id != id
      ensures res.Ok? <==> Find(recipes, id).Some?
    {
      var found := Find(recipes, id);
      FindFirst(recipes, id);
      match found {
        case Some(r) => res := Ok(r);
        case None => res := Err(NotFound);
      }
    }

    /**
     * POST /recipes: a falsy title is refused and nothing changes; otherwise
     * the new record, with a fresh id and the create handler's defaults, is
     * appended, and looking its id up finds it.
     */
    method Create(input: RecipeInput, now: Time) returns (res: Result<Recipe>)
      requires Valid()
      modifies this
      ensures Valid()
      ensures old(idFloor) <= idFloor
      ensures !TruthyString(input.title) ==> res == Err(TitleRequired) && recipes == old(recipes)
      ensures TruthyString(input.title) ==>
        && res.Ok?
        && recipes == old(recipes) + [res.value]
        && !IdInUse(old(recipes), res.value.id)
        && |res.value.id| == old(idFloor) && res.value.id != ""
        && res.value == NewRecipe(input, res.value.id, res.value.ingredients, now)
        && (input.ingredients.Given? ==> FreshlyResolved(input.ingredients.value, res.value.ingredients, old(recipes)))
        && (input.ingredients.Given? ==>
              forall i :: 0 <= i < |input.ingredients.value| && input.ingredients.value[i].id.None? ==>
                res.value.ingredients[i].id != res.value.id)
        && Find(recipes, res.value.id) == Some(res.value)
    {
      if !TruthyString(input.title) {
        return Err(TitleRequired);
      }
      var id := NewId();
      var resolved := [];
      if TruthyArray(input.ingredients) {
        resolved := ResolveIngredientIds(input.ingredients.value);
      }
      var r := NewRecipe(input, id, resolved, now);
      UniqueAfterAppend(recipes, r);
      FindAppended(recipes, r);
      recipes := recipes + [r];
      res := Ok(r);
    }

    /**
     * PUT /recipes/:id: an unknown id is NotFound and nothing changes;
     * otherwise the merged record replaces the one findIndex located and no
     * other slot changes.
     */
    method Update(id: string, input: RecipeInput, now: Time) returns (res: Result<Recipe>)
      requires Valid()
      modifies this
      ensures Valid()
      ensures old(idFloor) <= idFloor
      ensures FindIndex(old(recipes), id) == -1 ==> res == Err(NotFound) && recipes == old(recipes)
      ensures FindIndex(old(recipes), id) != -1 ==>
        var k := FindIndex(old(recipes), id);
        && res.Ok?
        && recipes == old(recipes)[k := res.value]
        && res.value == Merge(old(recipes)[k], input, res.value.ingredients, now)
        && (input.ingredients.Given? ==> FreshlyResolved(input.ingredients.value, res.value.ingredients, old(recipes)))
        && Find(recipes, id) == Some(res.value)
    {
      var k := FindIndex(recipes, id);
      if k == -1 {
        return Err(NotFound);
      }
      var resolved := [];
      if TruthyArray(input.ingredients) {
        resolved := ResolveIngredientIds(input.ingredients.value);
      }
      var r := Merge(recipes[k], input, resolved, now);
      UniqueAfterReplace(recipes, k, r);
      FindReplaced(recipes, id, r);
      recipes := recipes[k := r];
      res := Ok(r);
    }

    /**
     * DELETE /recipes/:id: every recipe carrying the id is filtered out; the
     * result is success exactly when the collection shrank, and afterwards
     * the id is not found.
     */
    method Delete(id: string) returns (res: Result<()>)
      requires Valid()
      modifies this`recipes
      ensures Valid()
      ensures recipes == RemoveId(old(recipes), id)
      ensures res.Ok? <==> |recipes| < |old(recipes)|
      ensures res.Ok? <==> FindIndex(old(recipes), id) != -1
      ensures res.Err? ==> res.error == NotFound && recipes == old(recipes)
      ensures Find(recipes, id) == None
    {
      var initialLength := |recipes|;
      RemoveIdShrinks(recipes, id);
      UniqueAfterRemove(recipes, id);
      FindAfterRemove(recipes, id);
      recipes := RemoveId(recipes, id);
      if |recipes| < initialLength {
        res := Ok(());
      } else {
        res := Err(NotFound);
      }
    }
  }

  /**
   * The create / get / delete / get sequence of the API's delete test, told
   * only through the handlers' contracts.
   */
  method CreateGetDeleteScenario(title: string, now: Time)
    requires title != ""
  {
    var store := new RecipeStore([]);
    var input := NoFields.(title := Given(title));
    var created := store.Create(input, now);
    assert created.Ok?;
    var r := created.value;
    assert r == DefaultRecipe(title, r.id, now) by {
      CreateDefaults(input, r.id, r.ingredients, now);
    }
    var got := store.GetById(r.id);
    assert got == Ok(r);
    var deleted := store.Delete(r.id);
    assert deleted.Ok?;
    var again := store.GetById(r.id);
    assert again == Err(NotFound);
    var deletedAgain := store.Delete(r.id);
    assert deletedAgain == Err(NotFound);
  }

  /** After create, delete, create, the second recipe does not get the deleted id. */
  method DeletedIdNotReissued(title: string, now: Time)
    requires title != ""
  {
    var store := new RecipeStore([]);
    var input := NoFields.(title := Given(title));
    var a := store.Create(input, now);
    var deleted := store.Delete(a.value.id);
    var b := store.Create(input, now);
    assert b.value.id != a.value.id;
  }
}
