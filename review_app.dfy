/** The review screen's component state and the transitions that change it:
    the collection list loaded on mount, the step change after a scan, and the
    user's edits of the loaded recipe. */
module ReviewApp {
  import opened Wrappers
  import opened RecipeTypes
  import opened JsString
  import RecipeEdits

  datatype Step = Upload | Review

  const MainDishes := "main dishes"
  const ScanFailed := "Failed to scan recipe"
  const BackendUnreachable := "Connection to backend failed. Is the server running?"

  /** The collection's lower-cased name contains "main dishes". */
  predicate IsMainDishes(c: Collection) {
    Includes(ToLowerCase(c.name), MainDishes)
  }

  /** `collections.find(c => c.name.toLowerCase().includes('main dishes'))`, as a position. */
  function FindMainDishes(cs: seq<Collection>): (r: Option<nat>)
    ensures r.Some? ==> r.value < |cs| && IsMainDishes(cs[r.value])
    ensures r.Some? ==> forall j :: 0 <= j < r.value ==> !IsMainDishes(cs[j])
    ensures r.None? ==> forall j :: 0 <= j < |cs| ==> !IsMainDishes(cs[j])
  {
    if cs == [] then None
    else if IsMainDishes(cs[0]) then Some(0)
    else match FindMainDishes(cs[1..])
      case None => None
      case Some(k) => Some(k + 1)
  }

  /** The screen's state: the `useState` hooks of the component. */
  class App {
    var step: Step
    var loading: bool
    var error: Option<string>
    var success: Option<string>
    var collections: seq<Collection>
    var selectedCollection: string
    var recipe: Option<Recipe>

    constructor ()
      ensures step == Upload && !loading && error == None && success == None
      ensures collections == [] && selectedCollection == "" && recipe == None
    {
      step := Upload;
      loading := false;
      error := None;
      success := None;
      collections := [];
      selectedCollection := "";
      recipe := None;
    }

    /** The collection listing arrives (`None`: the request or its JSON failed, which is only logged).
        On success the list is stored and "Main Dishes", if some collection matches, becomes the default. */
    method CollectionsLoaded(response: Option<CollectionResponse>)
      modifies this`collections, this`selectedCollection
      ensures response.Some? && response.value.success ==>
        collections == response.value.collections &&
        selectedCollection == match FindMainDishes(response.value.collections)
          case Some(k) => response.value.collections[k].id
          case None => old(selectedCollection)
      ensures !(response.Some? && response.value.success) ==>
        collections == old(collections) && selectedCollection == old(selectedCollection)
    {
      if response.Some? && response.value.success {
        var data := response.value;
        collections := data.collections;
        var mainDishes := FindMainDishes(data.collections);
        if mainDishes.Some? {
          selectedCollection := data.collections[mainDishes.value].id;
        }
      }
    }

    /** `scanRecipe`: the scan request's response arrives (`None`: the request or its JSON failed). */
    method ScanRecipe(response: Option<ScanResponse>)
      modifies this`loading, this`error, this`success, this`recipe, this`step
      ensures !loading && success == None
      ensures response.Some? && response.value.success && response.value.recipe.Some? ==>
        recipe == response.value.recipe && step == Review && error == None
      ensures response.Some? && !(response.value.success && response.value.recipe.Some?) ==>
        recipe == old(recipe) && step == old(step) && error == Some(OrString(response.value.error, ScanFailed))
      ensures response.None? ==>
        recipe == old(recipe) && step == old(step) && error == Some(BackendUnreachable)
    {
      loading := true;
      error := None;
      success := None;
      if response.Some? {
        var data := response.value;
        if data.success && data.recipe.Some? {
          recipe := data.recipe;
          step := Review;
        } else {
          error := Some(OrString(data.error, ScanFailed));
        }
      } else {
        error := Some(BackendUnreachable);
      }
      loading := false;
    }

    /** One of the edit helpers runs against the loaded recipe. */
    method Edit(e: RecipeEdits.Edit)
      requires RecipeEdits.Applicable(recipe, e)
      modifies this`recipe
      ensures recipe == RecipeEdits.Apply(old(recipe), e)
    {
      recipe := RecipeEdits.Apply(recipe, e);
    }
  }

  /** The mount effect: a fresh screen receives the collection listing (`None`: the request or its
      JSON failed, which is only logged). A successful listing selects the first "main dishes"
      collection; in every other case the selection stays Uncategorized (""). */
  method LoadOnMount(response: Option<CollectionResponse>) returns (app: App)
    ensures fresh(app)
    ensures app.step == Upload && !app.loading && app.error == None && app.success == None && app.recipe == None
    ensures response.Some? && response.value.success ==> app.collections == response.value.collections
    ensures !(response.Some? && response.value.success) ==> app.collections == []
    ensures response.None? ==> app.selectedCollection == ""
    ensures response.Some? && (FindMainDishes(response.value.collections).None? || !response.value.success) ==>
      app.selectedCollection == ""
    ensures response.Some? && response.value.success && FindMainDishes(response.value.collections).Some? ==>
      app.selectedCollection == response.value.collections[FindMainDishes(response.value.collections).value].id
  {
    app := new App();
    app.CollectionsLoaded(response);
  }
}
