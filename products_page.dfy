/**
 * The product list page of the front end: a table of products in which at most
 * one row is open for editing, a "new row" editor, a form with validation rules
 * and a snackbar that reports each completed action.
 *
 * The page's `id` state says which editor is open: `null` (None) the new-row
 * editor, `0` none, any other number the row of the product with that id.
 */
module ProductsPage {
  import opened Wrappers

  /** MUI's alert colours; the page only ever shows `Success`. */
  datatype Severity = Success | Info | Warning | Error

  /** A product as the page holds it; only the form's row has a null id. */
  datatype ProductData = ProductData(id: Option<int>, name: string, price: int, description: string)

  /** The values of the form's three inputs. */
  datatype FormValues = FormValues(name: string, price: int, description: string)

  const MaxNameLength := 100
  const MinPrice := 1
  const MaxPrice := 99999999

  /** JavaScript's `String.length`: the number of UTF-16 code units, two for a
      character outside the Basic Multilingual Plane and one for any other. */
  function Utf16Length(s: string): (n: nat)
    ensures |s| <= n <= 2 * |s|
  {
    if s == [] then 0
    else (if s[0] as int > 0xFFFF then 2 else 1) + Utf16Length(s[1..])
  }

  /** A string of Basic Multilingual Plane characters has one code unit each,
      so the name rule admits it exactly when it has 1 to 100 characters. */
  lemma {:induction false} Utf16LengthBmp(s: string)
    requires forall i :: 0 <= i < |s| ==> s[i] as int <= 0xFFFF
    ensures Utf16Length(s) == |s|
    ensures NameValid(s) <==> 1 <= |s| <= MaxNameLength
  {
    if s != [] {
      Utf16LengthBmp(s[1..]);
    }
  }

  /** A string of characters outside the Basic Multilingual Plane has two code
      units each, so the name rule admits at most 50 of them. */
  lemma {:induction false} Utf16LengthAstral(s: string)
    requires forall i :: 0 <= i < |s| ==> s[i] as int > 0xFFFF
    ensures Utf16Length(s) == 2 * |s|
    ensures NameValid(s) <==> 1 <= |s| <= MaxNameLength / 2
  {
    if s != [] {
      Utf16LengthAstral(s[1..]);
    }
  }

  /** The name input's rules: `required` (not empty) and `maxLength: 100`,
      which react-hook-form compares with the value's UTF-16 length. A valid
      name has between 1 and 100 characters. */
  predicate NameValid(name: string): (ok: bool)
    ensures ok ==> 1 <= |name| <= MaxNameLength
  {
    name != [] && Utf16Length(name) <= MaxNameLength
  }

  /** The price input's rules: `required`, `min: 1`, `max: 99999999`. */
  predicate PriceValid(price: int)
  {
    MinPrice <= price <= MaxPrice
  }

  /** The rules the new row and the edited row both register. */
  predicate FormValid(f: FormValues)
  {
    NameValid(f.name) && PriceValid(f.price)
  }

  const AddedMessage: string := "商品が登録されました"
  const UpdatedMessage: string := "商品が更新されました"
  const DeletedMessage: string := "商品が削除されました"

  /** `data.find((v) => v.id === k)`: the index of the first product whose id is
      `k`, or None when there is none. */
  method FindById(rows: seq<ProductData>, k: Option<int>) returns (r: Option<nat>)
    ensures r.None? <==> forall i :: 0 <= i < |rows| ==> rows[i].id != k
    ensures r.Some? ==> r.value < |rows| && rows[r.value].id == k
    ensures r.Some? ==> forall i :: 0 <= i < r.value ==> rows[i].id != k
  {
    var i := 0;
    while i < |rows|
      invariant 0 <= i <= |rows|
      invariant forall j :: 0 <= j < i ==> rows[j].id != k
    {
      if rows[i].id == k {
        return Some(i);
      }
      i := i + 1;
    }
    return None;
  }

  /** Every piece of the page's state, for stating what a handler leaves alone. */
  datatype PageState = PageState(
    data: seq<ProductData>,
    open: bool,
    severity: Severity,
    message: string,
    id: Option<int>,
    action: string,
    form: Option<FormValues>)

  class Page {
    var data: seq<ProductData>       // the products last fetched
    var open: bool                   // the snackbar is shown
    var severity: Severity
    var message: string
    var id: Option<int>              // which editor is open (see the module comment)
    var action: string               // the submit button last clicked: "add", "update" or "delete"
    var form: Option<FormValues>     // the values last loaded into the form by `reset`

    function State(): PageState
      reads this
    {
      PageState(data, open, severity, message, id, action, form)
    }

    /** The snackbar only ever reports success, and whenever it is open it shows
        the message of a completed add, update or delete. */
    ghost predicate Valid()
      reads this
    {
      && severity == Success
      && (open ==> message in {AddedMessage, UpdatedMessage, DeletedMessage})
    }

    /** The new-row editor is open. */
    predicate NewRowShown()
      reads this
    {
      id.None?
    }

    /** Product `k`'s row is open for editing. */
    predicate Editing(k: int)
      reads this
    {
      k != 0 && id == Some(k)
    }

    /** No editor is open. */
    predicate Idle()
      reads this
    {
      id == Some(0)
    }

    /** The page's initial state: no products, snackbar closed, no editor open,
        no action chosen, no form values loaded. */
    constructor ()
      ensures Valid() && Idle()
      ensures State() == PageState([], false, Success, "", Some(0), "", None)
    {
      data, open, severity, message := [], false, Success, "";
      id, action, form := Some(0), "", None;
    }

    /** `setData` after the product list is fetched. */
    method Load(rows: seq<ProductData>)
      requires Valid()
      modifies this
      ensures Valid()
      ensures State() == old(State()).(data := rows)
    {
      data := rows;
    }

    /** `result`: opens the snackbar with the given severity and message. */
    method Result(sev: Severity, msg: string)
      modifies this
      ensures State() == old(State()).(open := true, severity := sev, message := msg)
    {
      open, severity, message := true, sev, msg;
    }

    /** `handleClose`: closes the snackbar. */
    method HandleClose()
      requires Valid()
      modifies this
      ensures Valid() && !open
      ensures State() == old(State()).(open := false)
    {
      open := false;
    }

    /** A submit button's `setAction`. */
    method SetAction(a: string)
      requires Valid()
      modifies this
      ensures Valid()
      ensures State() == old(State()).(action := a)
    {
      action := a;
    }

    /** `handleShowNewRow`: opens the new-row editor with an empty form, which the
        validation rules reject until a name and a price are entered. */
    method HandleShowNewRow()
      requires Valid()
      modifies this
      ensures Valid() && NewRowShown()
      ensures State() == old(State()).(id := None, form := Some(FormValues("", 0, "")))
      ensures !FormValid(form.value)
    {
      id := None;
      form := Some(FormValues("", 0, ""));
    }

    /** `handleAddCancel`: closes the new-row editor. */
    method HandleAddCancel()
      requires Valid()
      modifies this
      ensures Valid() && Idle()
      ensures State() == old(State()).(id := Some(0))
    {
      id := Some(0);
    }

    /** `handleAdd`: reports the product as registered and closes the editor. */
    method HandleAdd(d: ProductData)
      requires Valid()
      modifies this
      ensures Valid() && Idle()
      ensures State() == old(State()).(open := true, severity := Success, message := AddedMessage, id := Some(0))
    {
      Result(Success, AddedMessage);
      id := Some(0);
    }

    /** `handleEditRow`: opens the row of the first product whose id is `k` and
        loads that product into the form. When no product has that id the
        page dereferences `undefined` and throws before changing any state;
        `found` is then false. */
    method HandleEditRow(k: Option<int>) returns (found: bool)
      requires Valid()
      modifies this
      ensures Valid()
      ensures found <==> exists i :: 0 <= i < |data| && data[i].id == k
      ensures !found ==> State() == old(State())
      ensures found && k.Some? && k.value != 0 ==> Editing(k.value)
      ensures found ==> exists i :: (
        && 0 <= i < |data| && data[i].id == k
        && (forall j :: 0 <= j < i ==> data[j].id != k)
        && State() == old(State()).(id := k, form := Some(FormValues(data[i].name, data[i].price, data[i].description))))
    {
      var r := FindById(data, k);
      if r.None? {
        return false;
      }
      var selected := data[r.value];
      id := selected.id;
      form := Some(FormValues(selected.name, selected.price, selected.description));
      found := true;
    }

    /** `handleEditCancel`: closes the edited row. */
    method HandleEditCancel()
      requires Valid()
      modifies this
      ensures Valid() && Idle()
      ensures State() == old(State()).(id := Some(0))
    {
      id := Some(0);
    }

    /** `handleEdit`: reports the product as updated and closes the editor. */
    method HandleEdit(d: ProductData)
      requires Valid()
      modifies this
      ensures Valid() && Idle()
      ensures State() == old(State()).(open := true, severity := Success, message := UpdatedMessage, id := Some(0))
    {
      Result(Success, UpdatedMessage);
      id := Some(0);
    }

    /** `handleDelete`: reports the product as deleted and closes the editor. */
    method HandleDelete(k: int)
      requires Valid()
      modifies this
      ensures Valid() && Idle()
      ensures State() == old(State()).(open := true, severity := Success, message := DeletedMessage, id := Some(0))
    {
      Result(Success, DeletedMessage);
      id := Some(0);
    }

    /** `onSubmit`: dispatches on the last clicked action. "add" always adds;
        "update" and "delete" do nothing while the new-row editor is open (a null
        id); any other action does nothing. */
    method OnSubmit(ev: FormValues)
      requires Valid()
      modifies this
      ensures Valid()
      ensures old(action) == "add" ==>
        State() == old(State()).(open := true, severity := Success, message := AddedMessage, id := Some(0))
      ensures old(action) == "update" && old(id).Some? ==>
        State() == old(State()).(open := true, severity := Success, message := UpdatedMessage, id := Some(0))
      ensures old(action) == "delete" && old(id).Some? ==>
        State() == old(State()).(open := true, severity := Success, message := DeletedMessage, id := Some(0))
      ensures old(action) in {"update", "delete"} && old(id).None? ==> State() == old(State())
      ensures old(action) !in {"add", "update", "delete"} ==> State() == old(State())
    {
      var d := ProductData(id, ev.name, ev.price, ev.description);
      if action == "add" {
        HandleAdd(d);
      } else if action == "update" {
        if d.id.None? {
          return;
        }
        HandleEdit(d);
      } else if action == "delete" {
        if d.id.None? {
          return;
        }
        HandleDelete(d.id.value);
      }
    }

    /** `handleSubmit(onSubmit)`: the form is handed to `onSubmit` only when it
        passes the name and price rules; otherwise nothing changes. */
    method Submit(ev: FormValues)
      requires Valid()
      modifies this
      ensures Valid()
      ensures !FormValid(ev) ==> State() == old(State())
      ensures FormValid(ev) && old(action) == "add" ==>
        State() == old(State()).(open := true, severity := Success, message := AddedMessage, id := Some(0))
      ensures FormValid(ev) && old(action) == "update" && old(id).Some? ==>
        State() == old(State()).(open := true, severity := Success, message := UpdatedMessage, id := Some(0))
      ensures FormValid(ev) && old(action) == "delete" && old(id).Some? ==>
        State() == old(State()).(open := true, severity := Success, message := DeletedMessage, id := Some(0))
      ensures old(action) in {"update", "delete"} && old(id).None? ==> State() == old(State())
      ensures old(action) !in {"add", "update", "delete"} ==> State() == old(State())
    {
      if FormValid(ev) {
        OnSubmit(ev);
      }
    }
  }
}
