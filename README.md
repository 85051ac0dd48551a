# AnyList recipe importer: review screen and AnyList service, modelled in Dafny

The importer turns a photographed recipe into an AnyList recipe. A web screen
shows the scanned recipe for review. The user edits its title, ingredient
lines, instruction steps and notes, and picks a collection. A backend service
then logs into AnyList (lazily, on first use) and creates the recipe through the
AnyList client library.

This project models the two parts of that flow that hold logic:

- **The review screen** (`frontend/src/App.tsx`).
  - The edit helpers `updateRecipe`, `handleArrayChange`, `addListItem` and
    `removeListItem` are pure functions on the loaded recipe (module
    `RecipeEdits`). They are proved to touch only their own field and
    position, and to do nothing when no recipe is loaded.
  - The component's state is the class `ReviewApp.App`. Its methods cover the
    collection listing loaded on mount (with the "main dishes" default), the
    step change after a scan, and applying an edit.
- **The AnyList service** (`backend/anylistService.js`).
  - `AnyListService.Service` holds the `isAuthenticated` flag and counts calls
    into the library's login. `CreateRecipe` logs in only when the flag is
    false, and a failed login leaves the flag false.
  - `LibRecipe` is the library's recipe object. Its fields are assigned one by
    one with JavaScript's `||` defaults, as the spec function `FieldsFor`
    describes. Ingredients are mapped one to one, in order, by `MapIngredients`.
  - The library's calls are inputs to the model. `login` and `save` each take
    an outcome parameter (succeeded, or threw with a message), and
    `createRecipeIngredient` is a function parameter.

A quirk of the code is kept in the model. The service reads the member `note`,
but the screen's record carries `notes` and posts it unchanged. Module
`SaveRequest` models the posted body. Assuming the create route hands that
body to `createRecipe` unchanged (the route is not in the modelled code), it
proves that a note typed on the screen always reaches AnyList as `""`.

Two behaviours of the service's code are kept as they are:

- the service does not check `name`. A missing `name` is passed to the library.
- a missing `ingredients` member fails at `recipeData.ingredients.map` (a
  TypeError), after the login.

JavaScript values are modelled as follows:

- `undefined` and `null` are `Option.None`.
- an exception is an `Outcome.Fail` or `Result.Err` value.
- a failed `fetch`, or a response whose JSON cannot be parsed, is a `None` response.

## Model

| member | source | states |
|---|---|---|
| `JsString.ToLowerCase` | frontend/src/App.tsx:29 | The lower-cased name has the same length and contains no upper-case ASCII letter. Every other character is kept, and each upper-case letter becomes its lower-case letter. |
| `JsString.IncludesIff` | frontend/src/App.tsx:29 | `includes` holds exactly when the needle occurs at some position of the string. |
| `RecipeEdits.GetDeterminesRecipe` | frontend/src/types.ts:1-10 | Two recipes that agree on every field of the `Recipe` record are equal. So "this field is set and every other field is unchanged" pins down an edit's result. |
| `RecipeEdits.UpdateRecipe` | frontend/src/App.tsx:115-118 | With no recipe loaded, nothing happens. Otherwise the named field takes the given value and every other field is unchanged. |
| `RecipeEdits.SetAt` | frontend/src/App.tsx:122-123 | Copy-then-index: the list keeps its length, position `index` holds the new value, and every other position is unchanged. |
| `RecipeEdits.Without` | frontend/src/App.tsx:134 | `filter` by position: an in-range index yields the list with exactly that element dropped (`list[..i] + list[i+1..]`). Any other index yields the list unchanged. |
| `RecipeEdits.WithoutPositions` | frontend/src/App.tsx:132-135 | After dropping position `i`, the length falls by one. Elements before `i` stay in place and later ones shift down by one, keeping their order. |
| `RecipeEdits.HandleArrayChange` | frontend/src/App.tsx:120-125 | With no recipe loaded, nothing happens. Otherwise position `index` of the chosen list becomes the value. The list's length and other positions, the other list and every other field are unchanged. |
| `RecipeEdits.AddListItem` | frontend/src/App.tsx:127-130 | With no recipe loaded, nothing happens. Otherwise exactly one `""` is appended to the chosen list, the earlier items are kept, and nothing else changes. |
| `RecipeEdits.RemoveListItem` | frontend/src/App.tsx:132-136 | With no recipe loaded, nothing happens. An in-range index drops exactly that item and leaves the other list and all other fields unchanged. An out-of-range index leaves the recipe as it was. |
| `RecipeEdits.RemoveUndoesAdd` | frontend/src/App.tsx:127-136 | Removing the item that `addListItem` just appended gives back the original recipe. |
| `ReviewApp.FindMainDishes` | frontend/src/App.tsx:29 | The result is the first collection whose lower-cased name contains "main dishes". It is absent only when no collection's name does. |
| `ReviewApp.App.constructor` | frontend/src/App.tsx:10-17 | The screen starts at the upload step: no recipe, no error, no success message, no collections, not loading, and the selection `""` (Uncategorized). |
| `ReviewApp.App.CollectionsLoaded` | frontend/src/App.tsx:22-34 | On a successful listing, the collections are stored. The selection becomes the id of the first "main dishes" collection, or keeps its value if none matches. A failed or unsuccessful listing changes nothing. |
| `ReviewApp.LoadOnMount` | frontend/src/App.tsx:16-34 | The rest of the new screen keeps its initial state (upload step, no recipe, no error or success message, not loading). On a fresh screen, a successful listing stores the collections and selects the first "main dishes" collection's id. A listing without a match, an unsuccessful listing or a failed request leaves the selection `""`. |
| `ReviewApp.App.ScanRecipe` | frontend/src/App.tsx:49-76 | A successful response that carries a recipe stores it, moves to the review step and leaves no error. Any other response leaves the step and recipe unchanged. It sets the response's error, or "Failed to scan recipe" when that is missing or empty. A failed request sets the connection error. Loading ends false. |
| `ReviewApp.App.Edit` | frontend/src/App.tsx:114-136 | The loaded recipe becomes the edit helper's result. No other state changes. |
| `AnyListService.FieldsFor` | backend/anylistService.js:48-64 | The recipe gets the record's name. `note`, `cookTime`, `prepTime`, `servings` and `preparationSteps` take the supplied value when present, and `""`, 0, 0, `""` and `[]` otherwise. Because each default is its type's falsy value, the `||` defaults and plain "present or default" agree, so a falsy input (`""`, 0) also yields the default. |
| `AnyListService.MapIngredients` | backend/anylistService.js:59-61 | One ingredient per input string, same length and order: entry k is built from input string k. |
| `AnyListService.LibRecipe.constructor` | backend/anylistService.js:48 | The new library recipe carries the given name and is not saved. |
| `AnyListService.LibRecipe.Save` | backend/anylistService.js:67 | On success the recipe is saved. On failure the library's message is returned as the error and the saved state is unchanged. |
| `AnyListService.Service.constructor` | backend/anylistService.js:13-19 | The service starts unauthenticated, with no login attempted. |
| `AnyListService.Service.Login` | backend/anylistService.js:25-35 | Each call invokes the library's login once. The flag becomes true only when that login succeeds. On failure the call reports "Could not authenticate with AnyList. Check your credentials." and leaves the flag unchanged. |
| `AnyListService.Service.CreateRecipe` | backend/anylistService.js:41-74 | Login happens exactly when the flag was false, and a failed login aborts with the authentication error, leaving the flag false. Otherwise a missing `ingredients` fails, and a failed save propagates its error. A recipe is returned exactly when all steps succeed. It is fresh and saved, its fields are `FieldsFor(data)` and its ingredients are `MapIngredients` of the input. |
| `SaveRequest.Body` | frontend/src/App.tsx:87-90 | The posted body is the screen's record spread out plus `collectionId`: it carries `notes` and no `note`, and every other member as the screen held it. |
| `SaveRequest.UiNoteNeverArrives` | frontend/src/App.tsx:87-90 | For the body the screen posts, the service builds `note = ""` whatever the screen's `notes` holds, because it reads `note` (backend/anylistService.js:51). The name, steps, times and servings arrive as the screen held them. |
| `SaveRequest.NotesEditIsLost` | frontend/src/App.tsx:238-241 | Editing the notes on the screen changes none of the fields the service sends to AnyList. |

## Left out

- `RecipeEdits.HandleArrayChange` and `ReviewApp.App.Edit` (for an `ArrayChange` edit): require the index to be in range when a recipe is loaded. The screen only calls it with the index of a rendered row (frontend/src/App.tsx:205-229). In JavaScript an index equal to the length appends the value, a larger one leaves `undefined` holes, and a negative one sets a non-element property. The model covers none of these: a list of strings cannot represent the holes or the extra property.
- `JsString.ToLowerCase`: lower-cases ASCII letters only. JavaScript's `toLowerCase` also maps non-ASCII letters, some of them to longer strings.
- `RecipeEdits.UpdateRecipe`: takes a value of the field's own type. The source's `value: any` would also let a value of another type be stored.
- Numbers are integers. JavaScript's fractional numbers and `NaN` (which is falsy) are not modelled. `cookTime`, `prepTime` and positions are `int`.
- Record members have their declared types. A truthy value of another type (a number as `note`, say) is not modelled.
- `AnyListService.MapIngredients`: `createRecipeIngredient` is a total function. Its parsing, and any exception it could raise, belong to the library.
- `AnyListService.LibRecipe.constructor`: the library's initial field values are unknown. The model starts from `""`, 0 and `[]`, and `createRecipe` overwrites all of them.
- The library's login protocol and how `save` persists are not modelled. Their success or failure is a parameter.
- `saveToAnyList`, the object-URL preview in `handleFileChange`, the Back button, the 3-second reset timer and all rendering in frontend/src/App.tsx: network I/O, timers and UI.
- backend/geminiService.js: the AI extraction call and the parsing of its text output are not part of this model.
- `SaveRequest.Body`: the `/api/create-recipe` route the screen posts to is not in backend/server.js. `UiNoteNeverArrives` and `NotesEditIsLost` assume that route passes the JSON body to `createRecipe` unchanged.
- backend/server.js: Express routing and a test route that calls `createRecipe` with a fixed record.
- Concurrent requests: the model is sequential.
- Console logging in `login` and `createRecipe`.
