/** The body the review screen posts to create a recipe (`{ ...recipe, collectionId }`),
    and what the AnyList service makes of it. The screen's record names its note
    `notes`; the service reads `note`. */
module SaveRequest {
  import opened Wrappers
  import opened RecipeTypes
  import RecipeEdits
  import AnyListService

  /** The JSON body of the save request: the recipe's own members plus the selected collection. */
  function Body(r: Recipe, collectionId: string): (d: AnyListService.RecipeData)
    ensures d.note.None? && d.notes == r.notes
    ensures d.name == Some(r.name) && d.collectionId == Some(collectionId)
    ensures d.ingredients == Some(r.ingredients) && d.instructions == Some(r.instructions)
    ensures d.cookTime == r.cookTime && d.prepTime == r.prepTime && d.servings == r.servings
    ensures d.creationTimestamp == r.creationTimestamp
  {
    AnyListService.RecipeData(
      Some(r.name), None, r.notes, Some(r.ingredients), Some(r.instructions),
      r.cookTime, r.prepTime, r.servings, r.creationTimestamp, Some(collectionId))
  }

  /** Whatever note the user typed, the recipe reaches AnyList with an empty note;
      every other field the service reads arrives as the screen held it. This and the
      next lemma hold for a create route that hands the posted body to `createRecipe` unchanged. */
  lemma UiNoteNeverArrives(r: Recipe, collectionId: string)
    ensures AnyListService.FieldsFor(Body(r, collectionId)).note == ""
    ensures AnyListService.FieldsFor(Body(r, collectionId)).name == Some(r.name)
    ensures AnyListService.FieldsFor(Body(r, collectionId)).preparationSteps == r.instructions
    ensures AnyListService.FieldsFor(Body(r, collectionId)).cookTime == (if r.cookTime.Some? then r.cookTime.value else 0)
    ensures AnyListService.FieldsFor(Body(r, collectionId)).prepTime == (if r.prepTime.Some? then r.prepTime.value else 0)
    ensures AnyListService.FieldsFor(Body(r, collectionId)).servings == (if r.servings.Some? then r.servings.value else "")
  {
  }

  /** Editing the notes on the review screen changes nothing the service sends to AnyList. */
  lemma NotesEditIsLost(r: Recipe, notes: Option<string>, collectionId: string)
    ensures RecipeEdits.UpdateRecipe(Some(r), RecipeEdits.NotesValue(notes)).Some?
    ensures AnyListService.FieldsFor(Body(RecipeEdits.UpdateRecipe(Some(r), RecipeEdits.NotesValue(notes)).value, collectionId))
         == AnyListService.FieldsFor(Body(r, collectionId))
  {
  }
}
