/**
 * frontend/app.js: the request modal's state (432-433, 451) and the handlers
 * that change it: openRequestModalWithType (595-598), the PC/CC buttons
 * (618-634), toggleEmployee (668-675) and the save button's guard and body
 * (708-719). The JavaScript `Set` of selected ids is a sequence without
 * duplicates in insertion order, the order `Array.from` gives.
 */
module AppRequests {
  import opened Wrappers
  import opened Js
  import opened Seqs
  import opened Records

  function Other(id: string): string -> bool
  {
    (y: string) => y != id
  }

  /** `Set.prototype.delete` */
  function Without(sel: seq<string>, id: string): seq<string>
  {
    Filter(sel, Other(id))
  }

  /** The selection after `toggleEmployee(id)`: deleted if present, else added at the end. */
  function Toggled(sel: seq<string>, id: string): seq<string>
  {
    if id in sel then Without(sel, id) else sel + [id]
  }

  /** Toggling flips the membership of `id` and of nothing else. */
  lemma ToggledMembers(sel: seq<string>, id: string, x: string)
    ensures x in Toggled(sel, id) <==> (x in sel) != (x == id)
  {
    FilterMembers(sel, Other(id), x);
  }

  lemma ToggledNoDuplicates(sel: seq<string>, id: string)
    requires NoDuplicates(sel)
    ensures NoDuplicates(Toggled(sel, id))
  {
    if id in sel {
      FilterNoDuplicates(sel, Other(id));
    }
  }

  /** Removing an element that occurs once shortens the sequence by one. */
  lemma {:induction false} WithoutLength(sel: seq<string>, id: string)
    requires NoDuplicates(sel)
    ensures |Without(sel, id)| == if id in sel then |sel| - 1 else |sel|
    decreases |sel|
  {
    if |sel| > 0 {
      var init := sel[..|sel| - 1];
      assert sel == init + [sel[|sel| - 1]];
      WithoutLength(init, id);
      if sel[|sel| - 1] == id {
        FilterKeepsAll(init, Other(id));
      }
    }
  }

  /** `selectedEmployees.size` after a toggle. */
  lemma ToggledSize(sel: seq<string>, id: string)
    requires NoDuplicates(sel)
    ensures |Toggled(sel, id)| == if id in sel then |sel| - 1 else |sel| + 1
  {
    WithoutLength(sel, id);
  }

  /** Toggling the same id twice gives back the same set of ids. */
  lemma ToggleTwice(sel: seq<string>, id: string)
    requires NoDuplicates(sel)
    ensures forall x :: x in Toggled(Toggled(sel, id), id) <==> x in sel
    ensures |Toggled(Toggled(sel, id), id)| == |sel|
  {
    forall x
      ensures x in Toggled(Toggled(sel, id), id) <==> x in sel
    {
      ToggledMembers(sel, id, x);
      ToggledMembers(Toggled(sel, id), id, x);
    }
    ToggledNoDuplicates(sel, id);
    ToggledSize(sel, id);
    ToggledMembers(sel, id, id);
    ToggledSize(Toggled(sel, id), id);
  }

  /** Adding an absent id and removing it again restores the exact sequence. */
  lemma ToggleTwiceAbsent(sel: seq<string>, id: string)
    requires id !in sel
    ensures Toggled(Toggled(sel, id), id) == sel
  {
    FilterSnoc(sel, id, Other(id));
    FilterKeepsAll(sel, Other(id));
  }

  /** The modal's module-level state: selected type, selected ids, notes textarea. */
  class RequestModal {
    var requestType: string
    var selected: seq<string>
    var notes: string

    predicate Valid()
      reads this
    {
      NoDuplicates(selected)
    }

    /** `let selectedRequestType = 'PC'; let selectedEmployees = new Set();` */
    constructor ()
      ensures Valid()
      ensures requestType == "PC" && selected == [] && notes == ""
    {
      requestType := "PC";
      selected := [];
      notes := "";
    }

    /** `openRequestModalWithType(type)`: the selection and the notes are cleared. */
    method OpenWithType(passType: string)
      modifies this
      ensures Valid()
      ensures requestType == passType && selected == [] && notes == ""
    {
      requestType := passType;
      selected := [];
      notes := "";
    }

    /** The PC and CC buttons: only the type changes, the selection is kept. */
    method ChooseType(passType: string)
      requires Valid()
      modifies this
      ensures Valid()
      ensures requestType == passType && selected == old(selected) && notes == old(notes)
    {
      requestType := passType;
    }

    /** Typing in the notes textarea. */
    method SetNotes(text: string)
      requires Valid()
      modifies this
      ensures Valid()
      ensures notes == text && requestType == old(requestType) && selected == old(selected)
    {
      notes := text;
    }

    /** `toggleEmployee(id)` */
    method Toggle(id: string)
      requires Valid()
      modifies this
      ensures Valid()
      ensures selected == Toggled(old(selected), id)
      ensures requestType == old(requestType) && notes == old(notes)
    {
      ToggledNoDuplicates(selected, id);
      if id in selected {
        selected := Without(selected, id);
      } else {
        selected := selected + [id];
      }
    }

    /**
     * The save button: nothing is sent while the selection is empty;
     * otherwise the body posted to `/api/requests`.
     */
    method Save() returns (r: Option<RequestBody>)
      requires Valid()
      ensures r.None? <==> |selected| == 0
      ensures r.Some? ==>
        && r.value.status == Present("PENDING")
        && r.value.passType == Present(requestType)
        && r.value.employeeIds == Present(selected)
        && NoDuplicates(r.value.employeeIds.value)
        && r.value.notes == Present(notes)
        && r.value.id == Undefined && r.value.createdBy == Undefined
    {
      if |selected| == 0 {
        return None;
      }
      r := Some(RequestBody(
        id := Undefined,
        passType := Present(requestType),
        status := Present("PENDING"),
        employeeIds := Present(selected),
        notes := Present(notes),
        createdBy := Undefined));
    }
  }
}
