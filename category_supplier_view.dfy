/**
 * The categories-and-suppliers view: for each of the two resources a modal
 * form that either adds a record or edits the one chosen, delete buttons
 * behind a confirmation, and a store refresh after every successful change.
 */
module CategorySupplierView {
  import opened Wrappers
  import opened Types
  import opened Api

  datatype Tab = CategoriesTab | SuppliersTab

  datatype CategoryForm = CategoryForm(name: string, brand: string, image: seq<string>)
  datatype SupplierForm = SupplierForm(name: string)

  /** The category form's defaults: empty name and brand and a single empty image URL. */
  const EmptyCategoryForm: CategoryForm := CategoryForm("", "", [""])
  const EmptySupplierForm: SupplierForm := SupplierForm("")

  /** The form filled in from a category being edited. */
  function CategoryFormOf(c: Category): CategoryForm {
    CategoryForm(c.name, c.brand, c.image)
  }

  /** Which write a category submit issues: an update of the record being edited, else an add. */
  function CategoryCall(editing: Option<Category>): (op: Operation)
    ensures editing.Some? ==> op == UpdateCategory(editing.value.id)
    ensures editing.None? <==> op == AddCategory
  {
    match editing
    case Some(c) => UpdateCategory(c.id)
    case None => AddCategory
  }

  function SupplierCall(editing: Option<Supplier>): (op: Operation)
    ensures editing.Some? ==> op == UpdateSupplier(editing.value.id)
    ensures editing.None? <==> op == AddSupplier
  {
    match editing
    case Some(s) => UpdateSupplier(s.id)
    case None => AddSupplier
  }

  /** What a delete handler does: the call it issues, if any, and whether it refreshes the store. */
  datatype DeleteEffect = DeleteEffect(call: Option<Operation>, refreshed: bool)

  /**
   * `handleDeleteCategory`/`handleDeleteSupplier`, given the answer to the
   * confirmation and how the delete settled: the API is called only when
   * confirmed, and the store refreshed only when that call succeeded.
   */
  function DeleteHandler(delete: Operation, confirmed: bool, outcome: Settled<()>): (e: DeleteEffect)
    requires delete.DeleteCategory? || delete.DeleteSupplier?
    ensures e.call.Some? <==> confirmed
    ensures e.call.Some? ==> e.call.value == delete && Route(delete).verb == DELETE
    ensures e.refreshed <==> confirmed && outcome.Fulfilled?
  {
    if confirmed then DeleteEffect(Some(delete), outcome.Fulfilled?) else DeleteEffect(None, false)
  }

  class CategorySupplierView {
    var activeTab: Tab
    var showCategoryForm: bool
    var showSupplierForm: bool
    var loading: bool
    var editingCategory: Option<Category>
    var editingSupplier: Option<Supplier>
    var categoryForm: CategoryForm
    var supplierForm: SupplierForm

    constructor ()
      ensures activeTab == CategoriesTab && !showCategoryForm && !showSupplierForm && !loading
      ensures editingCategory == None && editingSupplier == None
      ensures categoryForm == EmptyCategoryForm && supplierForm == EmptySupplierForm
    {
      activeTab := CategoriesTab;
      showCategoryForm, showSupplierForm, loading := false, false, false;
      editingCategory, editingSupplier := None, None;
      categoryForm, supplierForm := EmptyCategoryForm, EmptySupplierForm;
    }

    method SelectTab(t: Tab)
      modifies this`activeTab
      ensures activeTab == t
    {
      activeTab := t;
    }

    /**
     * `handleCategorySubmit`, given how the write settled: returns the call
     * issued with its body, whether the store was refreshed, and the notice
     * shown. On success the form closes, editing ends and the form resets;
     * on failure everything stays as it was and the notice names the mode.
     */
    method SubmitCategory(outcome: Settled<()>)
      returns (call: Operation, body: CategoryForm, refreshed: bool, notice: string)
      modifies this
      ensures call == CategoryCall(old(editingCategory)) && body == old(categoryForm)
      ensures !loading && activeTab == old(activeTab)
      ensures showSupplierForm == old(showSupplierForm) && editingSupplier == old(editingSupplier)
      ensures supplierForm == old(supplierForm)
      ensures refreshed <==> outcome.Fulfilled?
      ensures outcome.Fulfilled? ==>
        !showCategoryForm && editingCategory == None && categoryForm == EmptyCategoryForm
      ensures outcome.Fulfilled? ==>
        notice == if old(editingCategory).Some? then "Category updated successfully" else "Category added successfully"
      ensures outcome.Rejected? ==>
        showCategoryForm == old(showCategoryForm) && editingCategory == old(editingCategory)
        && categoryForm == old(categoryForm)
      ensures outcome.Rejected? ==>
        notice == if old(editingCategory).Some? then "Failed to update category" else "Failed to add category"
    {
      loading := true;
      call := CategoryCall(editingCategory);
      body := categoryForm;
      if outcome.Fulfilled? {
        notice := if editingCategory.Some? then "Category updated successfully" else "Category added successfully";
        showCategoryForm := false;
        editingCategory := None;
        categoryForm := EmptyCategoryForm;
        refreshed := true;
      } else {
        notice := if editingCategory.Some? then "Failed to update category" else "Failed to add category";
        refreshed := false;
      }
      loading := false;
    }

    /** `handleSupplierSubmit`: the same machine for suppliers. */
    method SubmitSupplier(outcome: Settled<()>)
      returns (call: Operation, body: SupplierForm, refreshed: bool, notice: string)
      modifies this
      ensures call == SupplierCall(old(editingSupplier)) && body == old(supplierForm)
      ensures !loading && activeTab == old(activeTab)
      ensures showCategoryForm == old(showCategoryForm) && editingCategory == old(editingCategory)
      ensures categoryForm == old(categoryForm)
      ensures refreshed <==> outcome.Fulfilled?
      ensures outcome.Fulfilled? ==>
        !showSupplierForm && editingSupplier == None && supplierForm == EmptySupplierForm
      ensures outcome.Fulfilled? ==>
        notice == if old(editingSupplier).Some? then "Supplier updated successfully" else "Supplier added successfully"
      ensures outcome.Rejected? ==>
        showSupplierForm == old(showSupplierForm) && editingSupplier == old(editingSupplier)
        && supplierForm == old(supplierForm)
      ensures outcome.Rejected? ==>
        notice == if old(editingSupplier).Some? then "Failed to update supplier" else "Failed to add supplier"
    {
      loading := true;
      call := SupplierCall(editingSupplier);
      body := supplierForm;
      if outcome.Fulfilled? {
        notice := if editingSupplier.Some? then "Supplier updated successfully" else "Supplier added successfully";
        showSupplierForm := false;
        editingSupplier := None;
        supplierForm := EmptySupplierForm;
        refreshed := true;
      } else {
        notice := if editingSupplier.Some? then "Failed to update supplier" else "Failed to add supplier";
        refreshed := false;
      }
      loading := false;
    }

    /** `handleEditCategory`: edit mode on `c`, its name, brand and images in the form, the form open. */
    method EditCategory(c: Category)
      modifies this`editingCategory, this`categoryForm, this`showCategoryForm
      ensures editingCategory == Some(c) && categoryForm == CategoryFormOf(c) && showCategoryForm
    {
      editingCategory := Some(c);
      categoryForm := CategoryFormOf(c);
      showCategoryForm := true;
    }

    /** `handleEditSupplier`: edit mode on `s`, its name in the form, the form open. */
    method EditSupplier(s: Supplier)
      modifies this`editingSupplier, this`supplierForm, this`showSupplierForm
      ensures editingSupplier == Some(s) && supplierForm == SupplierForm(s.name) && showSupplierForm
    {
      editingSupplier := Some(s);
      supplierForm := SupplierForm(s.name);
      showSupplierForm := true;
    }

    /** The "Add Category" button: add mode with the default form, the form open. */
    method OpenAddCategory()
      modifies this`editingCategory, this`categoryForm, this`showCategoryForm
      ensures editingCategory == None && categoryForm == EmptyCategoryForm && showCategoryForm
    {
      editingCategory := None;
      categoryForm := EmptyCategoryForm;
      showCategoryForm := true;
    }

    /** The category modal's close and Cancel buttons: closed, add mode, default form. */
    method CancelCategory()
      modifies this`editingCategory, this`categoryForm, this`showCategoryForm
      ensures editingCategory == None && categoryForm == EmptyCategoryForm && !showCategoryForm
    {
      showCategoryForm := false;
      editingCategory := None;
      categoryForm := EmptyCategoryForm;
    }

    method OpenAddSupplier()
      modifies this`editingSupplier, this`supplierForm, this`showSupplierForm
      ensures editingSupplier == None && supplierForm == EmptySupplierForm && showSupplierForm
    {
      editingSupplier := None;
      supplierForm := EmptySupplierForm;
      showSupplierForm := true;
    }

    method CancelSupplier()
      modifies this`editingSupplier, this`supplierForm, this`showSupplierForm
      ensures editingSupplier == None && supplierForm == EmptySupplierForm && !showSupplierForm
    {
      showSupplierForm := false;
      editingSupplier := None;
      supplierForm := EmptySupplierForm;
    }

    method SetCategoryName(v: string)
      modifies this`categoryForm
      ensures categoryForm == old(categoryForm).(name := v)
    {
      categoryForm := categoryForm.(name := v);
    }

    method SetCategoryBrand(v: string)
      modifies this`categoryForm
      ensures categoryForm == old(categoryForm).(brand := v)
    {
      categoryForm := categoryForm.(brand := v);
    }

    /** Typing in the image field replaces the whole image list with that one URL. */
    method SetCategoryImage(v: string)
      modifies this`categoryForm
      ensures categoryForm == old(categoryForm).(image := [v])
    {
      categoryForm := categoryForm.(image := [v]);
    }

    method SetSupplierName(v: string)
      modifies this`supplierForm
      ensures supplierForm == SupplierForm(v)
    {
      supplierForm := supplierForm.(name := v);
    }
  }
}
