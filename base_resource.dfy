/**
 * The importer REST resources' lookups (`BaseResource`): the import, task and item a request's
 * `import`, `task` and `item` path attributes name, with the errors raised when one is missing.
 */
module ImporterResource {
  import opened Wrappers
  import opened JavaNumbers

  datatype ImportItem = ImportItem(id: int)
  datatype ImportTask = ImportTask(id: int, items: seq<ImportItem>)
  datatype ImportContext = ImportContext(id: int, tasks: seq<ImportTask>)

  /** The request's path attributes. */
  datatype Attributes = Attributes(importId: Option<string>, taskId: Option<string>,
                                   itemId: Option<string>)

  /**
   * The result of a lookup: the object, or null (`Value(None)`), or the exception it throws:
   * `NumberFormatException`, `IndexOutOfBoundsException` from `List.get`, or a `RestletException`.
   */
  datatype Lookup<T> =
    | Value(found: Option<T>)
    | NumberFormat
    | IndexOutOfBounds
    | RestError(status: int, message: string)

  const NOT_FOUND := 404
  const BAD_REQUEST := 400

  /**
   * The element at the parsed index: `List.get` for an index below the size (a negative one
   * throws), null at or past the end.
   */
  function Indexed<T>(elements: seq<T>, id: int): (r: Lookup<T>)
    ensures 0 <= id < |elements| ==> r == Value(Some(elements[id]))
    ensures id < 0 <==> r == IndexOutOfBounds
    ensures id >= |elements| <==> r == Value(None)
  {
    if id < |elements| then
      if id < 0 then IndexOutOfBounds else Value(Some(elements[id]))
    else Value(None)
  }

  /** `context(optional)`: the import the `import` attribute names; `imports` is the importer. */
  function Context(attributes: Attributes, imports: map<int, ImportContext>, optional: bool)
    : (r: Lookup<ImportContext>)
    ensures ParseLong(attributes.importId).None? <==> r == NumberFormat
    ensures r.Value? && r.found.Some? <==>
      (ParseLong(attributes.importId).Some? && ParseLong(attributes.importId).value in imports)
    ensures r.Value? && r.found.Some? ==> r.found.value == imports[ParseLong(attributes.importId).value]
    ensures r.Value? && r.found.None? ==> optional
    ensures r.RestError? ==> !optional && r.status == NOT_FOUND
  {
    match ParseLong(attributes.importId)
    case None => NumberFormat
    case Some(i) =>
      if i in imports then Value(Some(imports[i]))
      else if optional then Value(None)
      else RestError(NOT_FOUND, "No such import: " + DecimalText(i))
  }

  /** `task(optional)`: the task the `task` attribute names within the (required) import. */
  function Task(attributes: Attributes, imports: map<int, ImportContext>, optional: bool)
    : (r: Lookup<ImportTask>)
    ensures r.Value? ==> Context(attributes, imports, false).Value?
    ensures r.Value? && r.found.Some? ==>
      var context := Context(attributes, imports, false).found.value;
      var id := ParseInt(attributes.taskId);
      id.Some? && 0 <= id.value < |context.tasks| && r.found.value == context.tasks[id.value]
    ensures r.Value? && r.found.None? ==> optional
    ensures optional && r.RestError? ==> Context(attributes, imports, false).RestError?
  {
    match Context(attributes, imports, false)
    case NumberFormat => NumberFormat
    case IndexOutOfBounds => IndexOutOfBounds
    case RestError(status, message) => RestError(status, message)
    case Value(context) =>
      var context := context.value;
      var task :=
        if attributes.taskId.None? then Value(None)
        else match ParseInt(attributes.taskId)
          case None => NumberFormat
          case Some(id) => Indexed(context.tasks, id);
      if task == Value(None) && !optional then
        RestError(NOT_FOUND, "No such task: " + attributes.taskId.Or("null") + " for import: "
          + DecimalText(context.id))
      else task
  }

  /** `item(optional)`: the item the `item` attribute names within the (required) task. */
  function Item(attributes: Attributes, imports: map<int, ImportContext>, optional: bool)
    : (r: Lookup<ImportItem>)
    ensures r.Value? ==> Task(attributes, imports, false).Value?
    ensures r.Value? && r.found.Some? ==>
      var task := Task(attributes, imports, false).found.value;
      var id := ParseInt(attributes.itemId);
      id.Some? && 0 <= id.value < |task.items| && r.found.value == task.items[id.value]
    ensures r.Value? && r.found.None? ==> optional
    ensures optional && r.RestError? ==> Task(attributes, imports, false).RestError?
  {
    match Task(attributes, imports, false)
    case NumberFormat => NumberFormat
    case IndexOutOfBounds => IndexOutOfBounds
    case RestError(status, message) => RestError(status, message)
    case Value(task) =>
      var task := task.value;
      var item :=
        if attributes.itemId.None? then Value(None)
        else match ParseInt(attributes.itemId)
          case None => NumberFormat
          case Some(id) => Indexed(task.items, id);
      if item == Value(None) && !optional then RestError(BAD_REQUEST, "No item specified")
      else item
  }

  /** The import named by its printed id is found, whether or not the lookup is optional. */
  lemma ContextOfPrintedId(importId: int, imports: map<int, ImportContext>, rest: Attributes,
                           optional: bool)
    requires LONG_MIN <= importId <= LONG_MAX
    ensures var attributes := rest.(importId := Some(DecimalText(importId)));
      (importId in imports ==> Context(attributes, imports, optional) == Value(Some(imports[importId])))
      && (importId !in imports && optional ==> Context(attributes, imports, optional) == Value(None))
      && (importId !in imports && !optional ==>
            Context(attributes, imports, optional)
              == RestError(NOT_FOUND, "No such import: " + DecimalText(importId)))
  {
    DecimalTextRoundTrip(importId, LONG_MIN, LONG_MAX);
  }

  /**
   * Within a known import, a task index below the task count gives that task, a negative one
   * fails in `List.get`, and one at or past the end is null: a 404 unless the lookup is optional.
   */
  lemma TaskOfPrintedIndex(context: ImportContext, index: int, imports: map<int, ImportContext>,
                           attributes: Attributes, optional: bool)
    requires Context(attributes, imports, false) == Value(Some(context))
    requires INT_MIN <= index <= INT_MAX && attributes.taskId == Some(DecimalText(index))
    ensures 0 <= index < |context.tasks| ==>
      Task(attributes, imports, optional) == Value(Some(context.tasks[index]))
    ensures index < 0 ==> Task(attributes, imports, optional) == IndexOutOfBounds
    ensures index >= |context.tasks| && optional ==> Task(attributes, imports, optional) == Value(None)
    ensures index >= |context.tasks| && !optional ==>
      Task(attributes, imports, optional) == RestError(NOT_FOUND,
        "No such task: " + DecimalText(index) + " for import: " + DecimalText(context.id))
  {
    DecimalTextRoundTrip(index, INT_MIN, INT_MAX);
  }

  /** A missing `task` attribute is treated like a task that does not exist. */
  lemma MissingTaskIsNotFound(context: ImportContext, imports: map<int, ImportContext>,
                              attributes: Attributes, optional: bool)
    requires Context(attributes, imports, false) == Value(Some(context))
    requires attributes.taskId.None?
    ensures optional ==> Task(attributes, imports, optional) == Value(None)
    ensures !optional ==>
      (Task(attributes, imports, optional)
         == RestError(NOT_FOUND, "No such task: null for import: " + DecimalText(context.id)))
  {
  }

  /**
   * Within a found task, an item index below the item count gives that item, a negative one
   * fails in `List.get`, and a missing or too large one is a 400 unless the lookup is optional.
   */
  lemma ItemOfPrintedIndex(task: ImportTask, index: int, imports: map<int, ImportContext>,
                           attributes: Attributes, optional: bool)
    requires Task(attributes, imports, false) == Value(Some(task))
    requires INT_MIN <= index <= INT_MAX && attributes.itemId == Some(DecimalText(index))
    ensures 0 <= index < |task.items| ==>
      Item(attributes, imports, optional) == Value(Some(task.items[index]))
    ensures index < 0 ==> Item(attributes, imports, optional) == IndexOutOfBounds
    ensures index >= |task.items| && optional ==> Item(attributes, imports, optional) == Value(None)
    ensures index >= |task.items| && !optional ==>
      Item(attributes, imports, optional) == RestError(BAD_REQUEST, "No item specified")
  {
    DecimalTextRoundTrip(index, INT_MIN, INT_MAX);
  }
}
