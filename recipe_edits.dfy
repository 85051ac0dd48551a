/** The review screen's edit helpers (`updateRecipe`, `handleArrayChange`,
    `addListItem`, `removeListItem`). Each maps the loaded recipe, or its absence,
    to the recipe the screen holds next; none of them does anything when no
    recipe is loaded. */
module RecipeEdits {
  import opened Wrappers
  import opened RecipeTypes

  /** `keyof Recipe` */
  datatype Field = Name | Ingredients | Instructions | Notes | CookTime | PrepTime | Servings | CreationTimestamp

  /** `'ingredients' | 'instructions'` */
  type ListField = f: Field | f == Ingredients || f == Instructions witness Ingredients

  /** A field together with a value of that field's type. */
  datatype FieldValue =
    | NameValue(name: string)
    | IngredientsValue(ingredients: seq<string>)
    | InstructionsValue(instructions: seq<string>)
    | NotesValue(notes: Option<string>)
    | CookTimeValue(cookTime: Option<int>)
    | PrepTimeValue(prepTime: Option<int>)
    | ServingsValue(servings: Option<string>)
    | CreationTimestampValue(creationTimestamp: Option<int>)

  function FieldOf(v: FieldValue): Field {
    match v
    case NameValue(_) => Name
    case IngredientsValue(_) => Ingredients
    case InstructionsValue(_) => Instructions
    case NotesValue(_) => Notes
    case CookTimeValue(_) => CookTime
    case PrepTimeValue(_) => PrepTime
    case ServingsValue(_) => Servings
    case CreationTimestampValue(_) => CreationTimestamp
  }

  /** `recipe[field]` */
  function Get(r: Recipe, f: Field): FieldValue {
    match f
    case Name => NameValue(r.name)
    case Ingredients => IngredientsValue(r.ingredients)
    case Instructions => InstructionsValue(r.instructions)
    case Notes => NotesValue(r.notes)
    case CookTime => CookTimeValue(r.cookTime)
    case PrepTime => PrepTimeValue(r.prepTime)
    case Servings => ServingsValue(r.servings)
    case CreationTimestamp => CreationTimestampValue(r.creationTimestamp)
  }

  /** `a` and `b` agree on every field other than `f`. */
  ghost predicate SameExcept(a: Recipe, b: Recipe, f: Field) {
    forall g :: g != f ==> Get(a, g) == Get(b, g)
  }

  /** The fields determine the recipe: a recipe that agrees with another on every field is that recipe. */
  lemma {:induction false} GetDeterminesRecipe(a: Recipe, b: Recipe)
    requires forall g :: Get(a, g) == Get(b, g)
    ensures a == b
  {
    assert Get(a, Name) == Get(b, Name);
    assert Get(a, Ingredients) == Get(b, Ingredients);
    assert Get(a, Instructions) == Get(b, Instructions);
    assert Get(a, Notes) == Get(b, Notes);
    assert Get(a, CookTime) == Get(b, CookTime);
    assert Get(a, PrepTime) == Get(b, PrepTime);
    assert Get(a, Servings) == Get(b, Servings);
    assert Get(a, CreationTimestamp) == Get(b, CreationTimestamp);
  }

  /** `recipe[field]` for a list field. */
  function ListOf(r: Recipe, f: ListField): seq<string> {
    if f == Ingredients then r.ingredients else r.instructions
  }

  function ListValue(f: ListField, list: seq<string>): FieldValue {
    if f == Ingredients then IngredientsValue(list) else InstructionsValue(list)
  }

  /** The list field that `f` is not. */
  function Other(f: ListField): ListField {
    if f == Ingredients then Instructions else Ingredients
  }

  /** `updateRecipe(field, value)`: `{ ...recipe, [field]: value }`. */
  function UpdateRecipe(recipe: Option<Recipe>, v: FieldValue): (r: Option<Recipe>)
    ensures recipe.None? ==> r.None?
    ensures recipe.Some? ==> r.Some? && Get(r.value, FieldOf(v)) == v && SameExcept(r.value, recipe.value, FieldOf(v))
  {
    match recipe
    case None => None
    case Some(rec) =>
      Some(match v
        case NameValue(x) => rec.(name := x)
        case IngredientsValue(x) => rec.(ingredients := x)
        case InstructionsValue(x) => rec.(instructions := x)
        case NotesValue(x) => rec.(notes := x)
        case CookTimeValue(x) => rec.(cookTime := x)
        case PrepTimeValue(x) => rec.(prepTime := x)
        case ServingsValue(x) => rec.(servings := x)
        case CreationTimestampValue(x) => rec.(creationTimestamp := x))
  }

  /** `const newList = [...list]; newList[index] = value;` */
  function SetAt(list: seq<string>, index: int, value: string): (r: seq<string>)
    requires 0 <= index < |list|
    ensures |r| == |list| && r[index] == value
    ensures forall k :: 0 <= k < |list| && k != index ==> r[k] == list[k]
  {
    list[index := value]
  }

  /** `list.filter((_, i) => i !== index)`: keeps every element whose position is not `index`. */
  function Without(list: seq<string>, index: int): (r: seq<string>)
    ensures 0 <= index < |list| ==> r == list[..index] + list[index + 1..]
    ensures !(0 <= index < |list|) ==> r == list
    decreases |list|
  {
    if list == [] then []
    else (if index == 0 then [] else [list[0]]) + Without(list[1..], index - 1)
  }

  /** Dropping position `index` shortens the list by one and shifts the later elements down, in order. */
  lemma WithoutPositions(list: seq<string>, index: int)
    requires 0 <= index < |list|
    ensures |Without(list, index)| == |list| - 1
    ensures forall k :: 0 <= k < index ==> Without(list, index)[k] == list[k]
    ensures forall k :: index <= k < |list| - 1 ==> Without(list, index)[k] == list[k + 1]
  {
  }

  /** `handleArrayChange(field, index, value)` */
  function HandleArrayChange(recipe: Option<Recipe>, f: ListField, index: int, value: string): (r: Option<Recipe>)
    requires recipe.Some? ==> 0 <= index < |ListOf(recipe.value, f)|
    ensures recipe.None? ==> r.None?
    ensures recipe.Some? ==> (
      && r.Some?
      && |ListOf(r.value, f)| == |ListOf(recipe.value, f)|
      && ListOf(r.value, f)[index] == value
      && (forall k :: 0 <= k < |ListOf(recipe.value, f)| && k != index ==> ListOf(r.value, f)[k] == ListOf(recipe.value, f)[k])
      && ListOf(r.value, Other(f)) == ListOf(recipe.value, Other(f))
      && SameExcept(r.value, recipe.value, f))
  {
    match recipe
    case None => None
    case Some(rec) => UpdateRecipe(recipe, ListValue(f, SetAt(ListOf(rec, f), index, value)))
  }

  /** `addListItem(field)`: `[...list, '']` */
  function AddListItem(recipe: Option<Recipe>, f: ListField): (r: Option<Recipe>)
    ensures recipe.None? ==> r.None?
    ensures recipe.Some? ==> (
      && r.Some?
      && |ListOf(r.value, f)| == |ListOf(recipe.value, f)| + 1
      && ListOf(r.value, f)[..|ListOf(recipe.value, f)|] == ListOf(recipe.value, f)
      && ListOf(r.value, f)[|ListOf(recipe.value, f)|] == ""
      && ListOf(r.value, Other(f)) == ListOf(recipe.value, Other(f))
      && SameExcept(r.value, recipe.value, f))
  {
    match recipe
    case None => None
    case Some(rec) => UpdateRecipe(recipe, ListValue(f, ListOf(rec, f) + [""]))
  }

  /** `removeListItem(field, index)` */
  function RemoveListItem(recipe: Option<Recipe>, f: ListField, index: int): (r: Option<Recipe>)
    ensures recipe.None? ==> r.None?
    ensures recipe.Some? && 0 <= index < |ListOf(recipe.value, f)| ==> (
      && r.Some?
      && ListOf(r.value, f) == ListOf(recipe.value, f)[..index] + ListOf(recipe.value, f)[index + 1..]
      && ListOf(r.value, Other(f)) == ListOf(recipe.value, Other(f))
      && SameExcept(r.value, recipe.value, f))
    ensures recipe.Some? && !(0 <= index < |ListOf(recipe.value, f)|) ==> r == recipe
  {
    match recipe
    case None => None
    case Some(rec) => UpdateRecipe(recipe, ListValue(f, Without(ListOf(rec, f), index)))
  }

  /** Removing the item that `addListItem` appended gives back the recipe as it was. */
  lemma RemoveUndoesAdd(recipe: Option<Recipe>, f: ListField)
    ensures recipe.Some? ==> RemoveListItem(AddListItem(recipe, f), f, |ListOf(recipe.value, f)|) == recipe
    ensures recipe.None? ==> RemoveListItem(AddListItem(recipe, f), f, 0) == None
  {
    if recipe.Some? {
      var before := recipe.value;
      var added := AddListItem(recipe, f).value;
      var after := RemoveListItem(Some(added), f, |ListOf(before, f)|).value;
      assert ListOf(after, f) == ListOf(before, f);
      forall g
        ensures Get(after, g) == Get(before, g)
      {
        if g == f {
          assert Get(after, g) == ListValue(f, ListOf(after, f));
        }
      }
      GetDeterminesRecipe(after, before);
    }
  }

  /** One user edit on the review screen. */
  datatype Edit =
    | Update(v: FieldValue)
    | ArrayChange(field: ListField, index: int, value: string)
    | AddItem(field: ListField)
    | RemoveItem(field: ListField, index: int)

  /** The edit can be applied: a list position being overwritten exists. */
  predicate Applicable(recipe: Option<Recipe>, e: Edit) {
    e.ArrayChange? && recipe.Some? ==> 0 <= e.index < |ListOf(recipe.value, e.field)|
  }

  function Apply(recipe: Option<Recipe>, e: Edit): Option<Recipe>
    requires Applicable(recipe, e)
  {
    match e
    case Update(v) => UpdateRecipe(recipe, v)
    case ArrayChange(f, i, x) => HandleArrayChange(recipe, f, i, x)
    case AddItem(f) => AddListItem(recipe, f)
    case RemoveItem(f, i) => RemoveListItem(recipe, f, i)
  }
}
