/** useQuitStore.ts, the state half: the list of quit items, the form
    record and the dialog flags, with the actions that replace them. */
module QuitStore {
  import opened Wrappers

  datatype BenefitType = Time | Money

  /** A tracked habit; `quitDate` is kept as the `YYYY-MM-DDTHH:mm` text. */
  datatype QuitItem = QuitItem(
    id: string,
    name: string,
    description: Option<string>,
    quitDate: string,
    benefitType: Option<BenefitType>,
    benefitAmount: Option<real>,
    benefitUnit: Option<string>)

  /** The form record; a `benefitType` of "" is None. */
  datatype FormData = FormData(
    name: string,
    description: string,
    quitDate: string,
    benefitType: Option<BenefitType>,
    benefitAmount: string,
    benefitUnit: string)

  const DefaultFormData: FormData := FormData("", "", "", None, "", "")

  /** `Partial<FormData>`: None for a field that is not supplied. */
  datatype FormUpdate = FormUpdate(
    name: Option<string>,
    description: Option<string>,
    quitDate: Option<string>,
    benefitType: Option<Option<BenefitType>>,
    benefitAmount: Option<string>,
    benefitUnit: Option<string>)

  const NoUpdate: FormUpdate := FormUpdate(None, None, None, None, None, None)

  function Pick<T>(supplied: Option<T>, current: T): T {
    if supplied.Some? then supplied.value else current
  }

  /** `{ ...form, ...updates }`: every supplied field is overwritten with
      the supplied value, every absent field keeps the form's value. */
  function Merge(form: FormData, u: FormUpdate): (r: FormData)
    ensures u.name.Some? ==> r.name == u.name.value
    ensures u.name.None? ==> r.name == form.name
    ensures u.description.Some? ==> r.description == u.description.value
    ensures u.description.None? ==> r.description == form.description
    ensures u.quitDate.Some? ==> r.quitDate == u.quitDate.value
    ensures u.quitDate.None? ==> r.quitDate == form.quitDate
    ensures u.benefitType.Some? ==> r.benefitType == u.benefitType.value
    ensures u.benefitType.None? ==> r.benefitType == form.benefitType
    ensures u.benefitAmount.Some? ==> r.benefitAmount == u.benefitAmount.value
    ensures u.benefitAmount.None? ==> r.benefitAmount == form.benefitAmount
    ensures u.benefitUnit.Some? ==> r.benefitUnit == u.benefitUnit.value
    ensures u.benefitUnit.None? ==> r.benefitUnit == form.benefitUnit
  {
    FormData(Pick(u.name, form.name), Pick(u.description, form.description),
             Pick(u.quitDate, form.quitDate), Pick(u.benefitType, form.benefitType),
             Pick(u.benefitAmount, form.benefitAmount), Pick(u.benefitUnit, form.benefitUnit))
  }

  /** `{ ...u, ...v }`: the later update wins where both supply a field. */
  function Then(u: FormUpdate, v: FormUpdate): FormUpdate {
    FormUpdate(if v.name.Some? then v.name else u.name,
               if v.description.Some? then v.description else u.description,
               if v.quitDate.Some? then v.quitDate else u.quitDate,
               if v.benefitType.Some? then v.benefitType else u.benefitType,
               if v.benefitAmount.Some? then v.benefitAmount else u.benefitAmount,
               if v.benefitUnit.Some? then v.benefitUnit else u.benefitUnit)
  }

  /** Merging overwrites exactly the supplied fields (field by field in
      Merge's contract), so an empty update changes nothing, applying the
      same update twice is applying it once, and two updates in a row are
      the one update in which the later value wins. */
  lemma MergeOverwritesOnlySupplied(form: FormData, u: FormUpdate, v: FormUpdate)
    ensures Merge(form, NoUpdate) == form
    ensures Merge(Merge(form, u), u) == Merge(form, u)
    ensures Merge(Merge(form, u), v) == Merge(form, Then(u, v))
  {
  }

  /** `items.map(item => item.id === id ? updated : item)`. */
  function ReplaceById(items: seq<QuitItem>, id: string, updated: QuitItem): (r: seq<QuitItem>)
    ensures |r| == |items|
    ensures forall i :: 0 <= i < |items| ==>
      r[i] == if items[i].id == id then updated else items[i]
  {
    if items == [] then []
    else [if items[0].id == id then updated else items[0]] + ReplaceById(items[1..], id, updated)
  }

  /** `items.filter(item => item.id !== id)`. */
  function RemoveById(items: seq<QuitItem>, id: string): (r: seq<QuitItem>)
    ensures |r| <= |items|
    ensures forall x :: x in r <==> x in items && x.id != id
  {
    if items == [] then []
    else (if items[0].id != id then [items[0]] else []) + RemoveById(items[1..], id)
  }

  /** Removal keeps the order of what it keeps: it works piecewise on a
      concatenation. */
  lemma {:induction false} RemoveKeepsOrder(a: seq<QuitItem>, b: seq<QuitItem>, id: string)
    ensures RemoveById(a + b, id) == RemoveById(a, id) + RemoveById(b, id)
  {
    if a == [] {
      assert a + b == b;
    } else {
      assert (a + b)[0] == a[0] && (a + b)[1..] == a[1..] + b;
      RemoveKeepsOrder(a[1..], b, id);
      var head := if a[0].id != id then [a[0]] else [];
      assert RemoveById(a + b, id) == head + (RemoveById(a[1..], id) + RemoveById(b, id));
    }
  }

  /** Deleting an id no item has changes nothing. */
  lemma {:induction false} RemoveAbsentIsNoOp(items: seq<QuitItem>, id: string)
    requires forall i :: 0 <= i < |items| ==> items[i].id != id
    ensures RemoveById(items, id) == items
  {
    if items != [] {
      RemoveAbsentIsNoOp(items[1..], id);
    }
  }

  /** Updating an id no item has changes nothing. */
  lemma ReplaceAbsentIsNoOp(items: seq<QuitItem>, id: string, updated: QuitItem)
    requires forall i :: 0 <= i < |items| ==> items[i].id != id
    ensures ReplaceById(items, id, updated) == items
  {
  }

  /** Adding an item with a fresh id and deleting that id restores the list. */
  lemma DeleteUndoesAdd(items: seq<QuitItem>, item: QuitItem)
    requires forall i :: 0 <= i < |items| ==> items[i].id != item.id
    ensures RemoveById(items + [item], item.id) == items
  {
    RemoveKeepsOrder(items, [item], item.id);
    RemoveAbsentIsNoOp(items, item.id);
    assert RemoveById([item], item.id) == [];
  }

  /** The unit a benefit type starts with: minutes for time, a dollar sign
      for money. */
  function DefaultUnit(t: BenefitType): string {
    if t == Time then "minutes" else "$"
  }

  /** The form after choosing a benefit type: the merge of the type and its
      default unit, every other field kept. */
  function WithBenefitType(form: FormData, t: BenefitType): (r: FormData)
    ensures r == Merge(form, NoUpdate.(benefitType := Some(Some(t)), benefitUnit := Some(DefaultUnit(t))))
    ensures r.benefitType == Some(t) && r.benefitUnit == DefaultUnit(t)
    ensures r.name == form.name && r.description == form.description
      && r.quitDate == form.quitDate && r.benefitAmount == form.benefitAmount
  {
    form.(benefitType := Some(t), benefitUnit := if t == Time then "minutes" else "$")
  }

  /** Choosing a type again replaces the earlier choice and its unit. */
  lemma BenefitTypeLastChoiceWins(form: FormData, t1: BenefitType, t2: BenefitType)
    ensures WithBenefitType(WithBenefitType(form, t1), t2) == WithBenefitType(form, t2)
  {
  }

  class Store {
    var items: seq<QuitItem>
    /** the instant of the last clock tick, in milliseconds */
    var currentTime: int
    var isDialogOpen: bool
    var editingItem: Option<QuitItem>
    var deleteConfirmItem: Option<QuitItem>
    var formData: FormData

    /** The initial state; `now` is the clock reading at creation. */
    constructor (now: int)
      ensures items == [] && currentTime == now && !isDialogOpen
      ensures editingItem == None && deleteConfirmItem == None && formData == DefaultFormData
    {
      items, currentTime, isDialogOpen := [], now, false;
      editingItem, deleteConfirmItem, formData := None, None, DefaultFormData;
    }

    method AddItem(item: QuitItem)
      modifies this`items
      ensures items == old(items) + [item]
    {
      items := items + [item];
    }

    method UpdateItem(id: string, updated: QuitItem)
      modifies this`items
      ensures items == ReplaceById(old(items), id, updated)
    {
      items := ReplaceById(items, id, updated);
    }

    method DeleteItem(id: string)
      modifies this`items
      ensures items == RemoveById(old(items), id)
    {
      items := RemoveById(items, id);
    }

    method SetEditingItem(item: Option<QuitItem>)
      modifies this`editingItem
      ensures editingItem == item
    {
      editingItem := item;
    }

    method SetDeleteConfirmItem(item: Option<QuitItem>)
      modifies this`deleteConfirmItem
      ensures deleteConfirmItem == item
    {
      deleteConfirmItem := item;
    }

    method SetDialogOpen(isOpen: bool)
      modifies this`isDialogOpen
      ensures isDialogOpen == isOpen
    {
      isDialogOpen := isOpen;
    }

    method UpdateFormData(updates: FormUpdate)
      modifies this`formData
      ensures formData == Merge(old(formData), updates)
    {
      formData := Merge(formData, updates);
    }

    method ResetForm()
      modifies this`formData, this`editingItem, this`isDialogOpen
      ensures formData == DefaultFormData && editingItem == None && !isDialogOpen
    {
      formData, editingItem, isDialogOpen := DefaultFormData, None, false;
    }

    /** The clock tick; `now` is the clock reading. */
    method UpdateCurrentTime(now: int)
      modifies this`currentTime
      ensures currentTime == now
    {
      currentTime := now;
    }

    method HandleBenefitTypeChange(t: BenefitType)
      modifies this`formData
      ensures formData == WithBenefitType(old(formData), t)
    {
      formData := WithBenefitType(formData, t);
    }
  }
}
