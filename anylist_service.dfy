/** The backend's AnyList session and recipe creation. The AnyList client
    library is not part of this model: the outcome of each of its calls
    (`login`, `save`) is a parameter, and the ingredient constructor
    `createRecipeIngredient` is a function parameter. */
module AnyListService {
  import opened Wrappers
  import opened JsString

  /** The request body the service receives: whatever members the caller sent. */
  datatype RecipeData = RecipeData(
    name: Option<string>,
    note: Option<string>,
    notes: Option<string>,
    ingredients: Option<seq<string>>,
    instructions: Option<seq<string>>,
    cookTime: Option<int>,
    prepTime: Option<int>,
    servings: Option<string>,
    creationTimestamp: Option<int>,
    collectionId: Option<string>)

  /** How a call into the client library ended. */
  datatype CallOutcome = Succeeded | Threw(message: string)

  datatype ServiceError =
    | AuthenticationFailed(message: string)
    | IngredientsMissing   // `recipeData.ingredients.map` on an absent member throws a TypeError
    | SaveFailed(message: string)

  const AuthFailureMessage := "Could not authenticate with AnyList. Check your credentials."

  /** The scalar and step fields the service gives a new library recipe. */
  datatype RecipeFields = RecipeFields(
    name: Option<string>,
    note: string,
    cookTime: int,
    prepTime: int,
    servings: string,
    preparationSteps: seq<string>)

  /** The fields `createRecipe` assigns, with JavaScript's `||` defaults. Since each
      default is itself the falsy value of its type, a field is the supplied value
      whenever one is present, and the default otherwise. */
  function FieldsFor(d: RecipeData): (p: RecipeFields)
    ensures p.name == d.name
    ensures p.note == (if d.note.Some? then d.note.value else "")
    ensures p.cookTime == (if d.cookTime.Some? then d.cookTime.value else 0)
    ensures p.prepTime == (if d.prepTime.Some? then d.prepTime.value else 0)
    ensures p.servings == (if d.servings.Some? then d.servings.value else "")
    ensures p.preparationSteps == (if d.instructions.Some? then d.instructions.value else [])
  {
    RecipeFields(
      d.name,
      OrString(d.note, ""),
      OrNumber(d.cookTime, 0),
      OrNumber(d.prepTime, 0),
      OrString(d.servings, ""),
      OrArray(d.instructions, []))
  }

  /** `texts.map(ing => createRecipeIngredient(ing))`: one entry per text, in order. */
  function MapIngredients<I>(texts: seq<string>, create: string -> I): (r: seq<I>)
    ensures |r| == |texts|
    ensures forall k :: 0 <= k < |texts| ==> r[k] == create(texts[k])
  {
    if texts == [] then [] else [create(texts[0])] + MapIngredients(texts[1..], create)
  }

  /** A recipe object of the client library; `saved` records that its `save` succeeded. */
  class LibRecipe<I> {
    var name: Option<string>
    var note: string
    var cookTime: int
    var prepTime: int
    var servings: string
    var ingredients: seq<I>
    var preparationSteps: seq<string>
    var saved: bool

    /** `anylist.createRecipe(name)`: a new, unsaved recipe. */
    constructor (name: Option<string>)
      ensures this.name == name && !saved
    {
      this.name := name;
      note := "";
      cookTime := 0;
      prepTime := 0;
      servings := "";
      ingredients := [];
      preparationSteps := [];
      saved := false;
    }

    function Fields(): RecipeFields
      reads this
    {
      RecipeFields(name, note, cookTime, prepTime, servings, preparationSteps)
    }

    /** `recipe.save()`: the library's error, if any, propagates unchanged. */
    method Save(outcome: CallOutcome) returns (r: Outcome<ServiceError>)
      modifies this`saved
      ensures saved == (old(saved) || outcome.Succeeded?)
      ensures r == if outcome.Succeeded? then Pass else Fail(SaveFailed(outcome.message))
    {
      if outcome.Succeeded? {
        saved := true;
        r := Pass;
      } else {
        r := Fail(SaveFailed(outcome.message));
      }
    }
  }

  /** The service: one library client, logged in lazily. */
  class Service {
    var isAuthenticated: bool
    ghost var loginCalls: nat   // how many times the library's `login` has been called

    constructor ()
      ensures !isAuthenticated && loginCalls == 0
    {
      isAuthenticated := false;
      loginCalls := 0;
    }

    /** `login()`: the flag turns true only once the library's login has succeeded;
        a failure is reported with a fixed message and leaves the flag as it was. */
    method Login(outcome: CallOutcome) returns (r: Outcome<ServiceError>)
      modifies this
      ensures loginCalls == old(loginCalls) + 1
      ensures outcome.Succeeded? ==> isAuthenticated && r == Pass
      ensures outcome.Threw? ==> isAuthenticated == old(isAuthenticated) && r == Fail(AuthenticationFailed(AuthFailureMessage))
    {
      loginCalls := loginCalls + 1;
      if outcome.Succeeded? {
        isAuthenticated := true;
        r := Pass;
      } else {
        r := Fail(AuthenticationFailed(AuthFailureMessage));
      }
    }

    /** `createRecipe(recipeData)`: logs in if not yet authenticated, builds the library
        recipe field by field and saves it. `loginOutcome` is consulted only if a login happens. */
    method CreateRecipe<I>(data: RecipeData, createIngredient: string -> I, loginOutcome: CallOutcome, saveOutcome: CallOutcome)
      returns (r: Result<LibRecipe<I>, ServiceError>)
      modifies this
      ensures loginCalls == old(loginCalls) + (if old(isAuthenticated) then 0 else 1)
      ensures isAuthenticated == (old(isAuthenticated) || loginOutcome.Succeeded?)
      ensures !old(isAuthenticated) && loginOutcome.Threw? ==> r == Err(AuthenticationFailed(AuthFailureMessage))
      ensures isAuthenticated && data.ingredients.None? ==> r == Err(IngredientsMissing)
      ensures isAuthenticated && data.ingredients.Some? && saveOutcome.Threw? ==> r == Err(SaveFailed(saveOutcome.message))
      ensures r.Ok? <==> isAuthenticated && data.ingredients.Some? && saveOutcome.Succeeded?
      ensures r.Ok? ==> fresh(r.value) && r.value.saved
      ensures r.Ok? ==> r.value.Fields() == FieldsFor(data)
      ensures r.Ok? ==> r.value.ingredients == MapIngredients(data.ingredients.value, createIngredient)
    {
      if !isAuthenticated {
        var loggedIn := Login(loginOutcome);
        if loggedIn.Fail? {
          return Err(loggedIn.error);
        }
      }
      var recipe := new LibRecipe<I>(data.name);
      recipe.note := OrString(data.note, "");
      recipe.cookTime := OrNumber(data.cookTime, 0);
      recipe.prepTime := OrNumber(data.prepTime, 0);
      recipe.servings := OrString(data.servings, "");
      if data.ingredients.None? {
        return Err(IngredientsMissing);
      }
      recipe.ingredients := MapIngredients(data.ingredients.value, createIngredient);
      recipe.preparationSteps := OrArray(data.instructions, []);
      var saved := recipe.Save(saveOutcome);
      if saved.Fail? {
        return Err(saved.error);
      }
      return Ok(recipe);
    }
  }
}
