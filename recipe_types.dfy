/** The records exchanged between the review UI and the backend. */
module RecipeTypes {
  import opened Wrappers

  /** A recipe as the UI holds and edits it; optional members are `Option`s. */
  datatype Recipe = Recipe(
    name: string,
    ingredients: seq<string>,
    instructions: seq<string>,
    notes: Option<string>,
    cookTime: Option<int>,
    prepTime: Option<int>,
    servings: Option<string>,
    creationTimestamp: Option<int>)

  /** An AnyList collection (a category the user can file a recipe under). */
  datatype Collection = Collection(id: string, name: string)

  /** Body of the backend's answer to a scan request. */
  datatype ScanResponse = ScanResponse(success: bool, recipe: Option<Recipe>, error: Option<string>)

  /** Body of the backend's answer to a collection listing. */
  datatype CollectionResponse = CollectionResponse(success: bool, count: int, collections: seq<Collection>)
}
