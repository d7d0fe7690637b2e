/**
 * The internship creation form: three editable string lists
 * (requirements, responsibilities, skills), each edited by copy-then-modify
 * helpers, and the `isSubmitting` flag of the submit handler.
 */
module CreateInternship {

  /** `[...list, '']`: one empty item appended. */
  function AddListItem(list: seq<string>): (r: seq<string>)
    ensures |r| == |list| + 1
    ensures r[..|list|] == list && r[|list|] == ""
  {
    list + [""]
  }

  /** `list.filter((_, i) => i !== index)`: the item at `index` dropped, if there is one. */
  function RemoveListItem(index: int, list: seq<string>): (r: seq<string>)
    ensures 0 <= index < |list| ==> |r| == |list| - 1
    ensures 0 <= index < |list| ==> forall k :: 0 <= k < index ==> r[k] == list[k]
    ensures 0 <= index < |list| ==> forall k :: index <= k < |r| ==> r[k] == list[k + 1]
    ensures !(0 <= index < |list|) ==> r == list
    decreases |list|
  {
    if list == [] then []
    else if index == 0 then list[1..]
    else [list[0]] + RemoveListItem(index - 1, list[1..])
  }

  /** `newList[index] = value` on a copy, for an index the form renders. */
  function UpdateListItem(index: nat, value: string, list: seq<string>): (r: seq<string>)
    requires index < |list|
    ensures |r| == |list| && r[index] == value
    ensures forall k :: 0 <= k < |list| && k != index ==> r[k] == list[k]
  {
    list[index := value]
  }

  /** Removing the item just added gives back the list as it was. */
  lemma AddThenRemove(list: seq<string>)
    ensures RemoveListItem(|list|, AddListItem(list)) == list
  {
    var r := RemoveListItem(|list|, AddListItem(list));
    assert |r| == |list|;
    assert forall k :: 0 <= k < |list| ==> r[k] == list[k];
  }

  /** Writing back the value a position already holds changes nothing. */
  lemma UpdateSameValue(index: nat, list: seq<string>)
    requires index < |list|
    ensures UpdateListItem(index, list[index], list) == list
  {
  }

  /** The remove control exists only on lists with more than one item, so removing never empties a list. */
  lemma RemoveKeepsOne(index: nat, list: seq<string>)
    requires |list| > 1 && index < |list|
    ensures |RemoveListItem(index, list)| >= 1
  {
  }

  datatype ListKind = Requirements | Responsibilities | Skills

  const ManageInternshipsPath: string := "/company/manage-internships"

  class InternshipForm {
    var requirements: seq<string>
    var responsibilities: seq<string>
    var skills: seq<string>
    var isSubmitting: bool

    function ListOf(kind: ListKind): seq<string>
      reads this
    {
      match kind
      case Requirements => requirements
      case Responsibilities => responsibilities
      case Skills => skills
    }

    /** No list is ever empty. */
    predicate Valid()
      reads this
    {
      |requirements| >= 1 && |responsibilities| >= 1 && |skills| >= 1
    }

    /** `list.length > 1 && <remove button>`. */
    predicate RemoveOffered(kind: ListKind)
      reads this
    {
      |ListOf(kind)| > 1
    }

    /** The submit button is disabled, and reads "Creating...", while submitting. */
    function SubmitLabel(): (r: string)
      reads this
      ensures r == "Creating..." <==> isSubmitting
      ensures !isSubmitting ==> r == "Create Internship"
    {
      if isSubmitting then "Creating..." else "Create Internship"
    }

    constructor ()
      ensures requirements == [""] && responsibilities == [""] && skills == [""]
      ensures !isSubmitting
      ensures Valid()
    {
      requirements, responsibilities, skills := [""], [""], [""];
      isSubmitting := false;
    }

    /** The "Add …" button of list `kind`. */
    method AddItem(kind: ListKind)
      requires Valid()
      modifies this
      ensures ListOf(kind) == AddListItem(old(ListOf(kind)))
      ensures forall other :: other != kind ==> ListOf(other) == old(ListOf(other))
      ensures isSubmitting == old(isSubmitting)
      ensures Valid()
    {
      match kind
      case Requirements => requirements := AddListItem(requirements);
      case Responsibilities => responsibilities := AddListItem(responsibilities);
      case Skills => skills := AddListItem(skills);
    }

    /** The remove button on row `index` of list `kind`; it is only rendered when `RemoveOffered(kind)`. */
    method RemoveItem(kind: ListKind, index: nat)
      requires Valid() && RemoveOffered(kind) && index < |ListOf(kind)|
      modifies this
      ensures ListOf(kind) == RemoveListItem(index, old(ListOf(kind)))
      ensures forall other :: other != kind ==> ListOf(other) == old(ListOf(other))
      ensures isSubmitting == old(isSubmitting)
      ensures Valid()
    {
      match kind
      case Requirements => requirements := RemoveListItem(index, requirements);
      case Responsibilities => responsibilities := RemoveListItem(index, responsibilities);
      case Skills => skills := RemoveListItem(index, skills);
    }

    /** Typing `value` into row `index` of list `kind`. */
    method UpdateItem(kind: ListKind, index: nat, value: string)
      requires Valid() && index < |ListOf(kind)|
      modifies this
      ensures ListOf(kind) == UpdateListItem(index, value, old(ListOf(kind)))
      ensures forall other :: other != kind ==> ListOf(other) == old(ListOf(other))
      ensures isSubmitting == old(isSubmitting)
      ensures Valid()
    {
      match kind
      case Requirements => requirements := UpdateListItem(index, value, requirements);
      case Responsibilities => responsibilities := UpdateListItem(index, value, responsibilities);
      case Skills => skills := UpdateListItem(index, value, skills);
    }

    /** `handleSubmit` up to its `await`: the flag goes up. */
    method BeginSubmit()
      requires Valid()
      modifies this`isSubmitting
      ensures isSubmitting && SubmitLabel() == "Creating..."
      ensures Valid()
    {
      isSubmitting := true;
    }

    /**
     * `handleSubmit` after its `await`: the simulated call always resolves,
     * so it navigates to the management page, and `finally` lowers the flag.
     */
    method FinishSubmit() returns (nav: string)
      requires Valid()
      modifies this`isSubmitting
      ensures !isSubmitting && nav == ManageInternshipsPath
      ensures SubmitLabel() == "Create Internship"
      ensures Valid()
    {
      nav := ManageInternshipsPath;
      isSubmitting := false;
    }
  }

  /**
   * Every row shows a remove button once a second row exists; pressing one
   * after adding an item leaves the other lists alone and the form valid.
   */
  method AddThenRemoveFirst(kind: ListKind) returns (edited: seq<string>, others: seq<seq<string>>)
    ensures edited == [""]
    ensures |others| == 2 && others[0] == [""] && others[1] == [""]
  {
    var form := new InternshipForm();
    form.AddItem(kind);
    form.RemoveItem(kind, 0);
    edited := form.ListOf(kind);
    var rest := if kind == Requirements then [Responsibilities, Skills]
                else if kind == Responsibilities then [Requirements, Skills]
                else [Requirements, Responsibilities];
    others := [form.ListOf(rest[0]), form.ListOf(rest[1])];
  }
}
