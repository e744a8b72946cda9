/**
  The input form (`ToDoForm`): the blank-field check of `getUserInput`, built
  on `String.prototype.trim`, and the submit handler that hands an accepted
  pair to the store.
 */
module Form {
  import opened Tasks
  import Store
  import Columns

  /**
    The code points `trim` strips: ECMAScript's WhiteSpace (tab, vertical tab,
    form feed, space, no-break space, byte order mark and the space separators)
    and LineTerminator (line feed, carriage return, line and paragraph separators).
   */
  predicate IsWhitespace(c: char) {
    || c == '\t' || c == '\n' || c == '\U{000B}' || c == '\U{000C}' || c == '\r'
    || c == ' ' || c == '\U{00A0}' || c == '\U{1680}'
    || ('\U{2000}' <= c <= '\U{200A}')
    || c == '\U{2028}' || c == '\U{2029}' || c == '\U{202F}' || c == '\U{205F}'
    || c == '\U{3000}' || c == '\U{FEFF}'
  }

  /** A field that holds nothing but whitespace. */
  predicate Blank(s: string) {
    forall i :: 0 <= i < |s| ==> IsWhitespace(s[i])
  }

  /** `s` without its leading whitespace: a suffix of `s` that starts with a visible character. */
  function TrimStart(s: string): (r: string)
    ensures |r| <= |s| && r == s[|s| - |r|..]
    ensures forall i :: 0 <= i < |s| - |r| ==> IsWhitespace(s[i])
    ensures r != [] ==> !IsWhitespace(r[0])
  {
    if |s| > 0 && IsWhitespace(s[0]) then TrimStart(s[1..]) else s
  }

  /** `s` without its trailing whitespace: a prefix of `s` that ends with a visible character. */
  function TrimEnd(s: string): (r: string)
    ensures |r| <= |s| && r == s[..|r|]
    ensures forall i :: |r| <= i < |s| ==> IsWhitespace(s[i])
    ensures r != [] ==> !IsWhitespace(r[|r| - 1])
  {
    if |s| > 0 && IsWhitespace(s[|s| - 1]) then TrimEnd(s[..|s| - 1]) else s
  }

  /**
    `s.trim()`: the stretch of `s` from its first to its last visible
    character; everything cut off on either side is whitespace.
   */
  function Trim(s: string): (r: string)
    ensures var start := |s| - |TrimStart(s)|;
      && start + |r| <= |s| && r == s[start..start + |r|]
      && (forall i :: 0 <= i < |s| && (i < start || start + |r| <= i) ==> IsWhitespace(s[i]))
      && (r != [] ==> !IsWhitespace(r[0]) && !IsWhitespace(r[|r| - 1]))
  {
    TrimEnd(TrimStart(s))
  }

  /** `trim()` leaves nothing exactly when the field is blank. */
  lemma TrimEmptyIffBlank(s: string)
    ensures |Trim(s)| == 0 <==> Blank(s)
  {
  }

  /** An accepted submission: the title and description exactly as typed. */
  datatype Submission = Submission(title: string, description: string)

  /**
    `getUserInput`: reject when either trimmed field is empty, otherwise hand
    back both fields untrimmed.
   */
  function GetUserInput(title: string, description: string): (r: Option<Submission>)
    ensures r.Some? <==> !Blank(title) && !Blank(description)
    ensures r.Some? ==> r.value == Submission(title, description)
  {
    TrimEmptyIffBlank(title);
    TrimEmptyIffBlank(description);
    if |Trim(title)| == 0 || |Trim(description)| == 0 then None
    else Some(Submission(title, description))
  }

  /** The form, holding the current contents of its two inputs. */
  class ToDoForm {
    var title: string
    var description: string
    const store: Store.TaskStore

    constructor (store: Store.TaskStore)
      ensures this.store == store && title == "" && description == ""
    {
      this.store := store;
      title := "";
      description := "";
    }

    /** `clearInputs`. */
    method ClearInputs()
      modifies this
      ensures title == "" && description == ""
    {
      title := "";
      description := "";
    }

    /**
      `onSubmit`, with `id` standing for the store's random draw: an accepted
      pair becomes one new task and the inputs are cleared; a rejected one
      leaves the store and the inputs as they were.
     */
    method OnSubmit(id: nat)
      requires store.Valid() && ValidId(id)
      modifies this, store, store.listeners
      ensures store.Valid()
      ensures GetUserInput(old(title), old(description)).Some? ==>
                && store.tasks == old(store.tasks) + [Task(id, old(title), old(description), Ongoing)]
                && store.log == old(store.log) + Store.Round(|store.listeners|, store.tasks)
                && store.ColumnsShowCurrent()
                && title == "" && description == ""
      ensures GetUserInput(old(title), old(description)).None? ==>
                && store.tasks == old(store.tasks) && store.log == old(store.log)
                && title == old(title) && description == old(description)
                && forall l :: l in old(store.listeners) ==> l.assignedTasks == old(l.assignedTasks)
      ensures store.listeners == old(store.listeners)
    {
      var input := GetUserInput(title, description);
      if input.Some? {
        store.AddTask(input.value.title, input.value.description, id);
        ClearInputs();
      }
    }
  }

  /**
    The page's start-up: take the one store, then build the form and the two
    columns, which register their listeners in that order (ongoing first).
   */
  method Start(holder: Store.StoreHolder) returns (form: ToDoForm, ongoing: Store.TaskList, completed: Store.TaskList)
    modifies holder, holder.instance
    ensures fresh(form) && fresh(ongoing) && fresh(completed)
    ensures holder.instance != null && form.store == holder.instance
    ensures form.title == "" && form.description == ""
    ensures ongoing.assignedTasks == [] && completed.assignedTasks == []
    ensures ongoing.kind == Columns.OngoingColumn && ongoing.store == holder.instance
    ensures completed.kind == Columns.CompletedColumn && completed.store == holder.instance
    ensures old(holder.instance) == null ==>
              && fresh(holder.instance)
              && holder.instance.listeners == [ongoing, completed]
              && holder.instance.tasks == [] && holder.instance.log == []
    ensures old(holder.instance) != null ==>
              && holder.instance == old(holder.instance)
              && holder.instance.listeners == old(holder.instance.listeners) + [ongoing, completed]
              && holder.instance.tasks == old(holder.instance.tasks)
              && holder.instance.log == old(holder.instance.log)
  {
    var store := holder.GetInstance();
    form := new ToDoForm(store);
    ongoing := new Store.TaskList(Columns.OngoingColumn, store);
    completed := new Store.TaskList(Columns.CompletedColumn, store);
  }
}
