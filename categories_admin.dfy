/**
 * The seller's categories page (admin-seller/categories/page.tsx): the local
 * list `data`, the create and edit forms' fields, the selection, and the
 * handlers that change them after the server answers. Server answers are
 * parameters: `None` or `false` stands for a request that failed.
 */
module CategoriesAdmin {
  import opened Wrappers
  import opened ListOps

  datatype Category = Category(id: string, name: string, desc: Option<string>)

  /** The fields the server returns for an update; those present override the row's. */
  datatype CategoryPatch = CategoryPatch(id: Option<string>, name: Option<string>, desc: Option<Option<string>>)

  /** The body of a create or update request. */
  datatype CategoryRequest = CategoryRequest(id: Option<string>, name: string, desc: Option<string>)

  function Merge(c: Category, patch: CategoryPatch): (r: Category)
    ensures r.id == (if patch.id.Some? then patch.id.value else c.id)
    ensures r.name == (if patch.name.Some? then patch.name.value else c.name)
    ensures r.desc == (if patch.desc.Some? then patch.desc.value else c.desc)
  {
    Category(
      if patch.id.Some? then patch.id.value else c.id,
      if patch.name.Some? then patch.name.value else c.name,
      if patch.desc.Some? then patch.desc.value else c.desc)
  }

  /** `prev.map(category => category.id === id ? { ...category, ...updated } : category)`, where `id` may be undefined. */
  function MergeRows(rows: seq<Category>, id: Option<string>, patch: CategoryPatch): (r: seq<Category>)
    ensures |r| == |rows|
    ensures forall k :: 0 <= k < |rows| && Some(rows[k].id) == id ==> r[k] == Merge(rows[k], patch)
    ensures forall k :: 0 <= k < |rows| && Some(rows[k].id) != id ==> r[k] == rows[k]
  {
    seq(|rows|, k requires 0 <= k < |rows| => if Some(rows[k].id) == id then Merge(rows[k], patch) else rows[k])
  }

  function CategoryId(c: Category): string {
    c.id
  }

  /** An undefined id matches no row: the merge leaves the list as it is. */
  lemma {:induction false} MergeWithoutIdKeepsRows(rows: seq<Category>, patch: CategoryPatch)
    ensures MergeRows(rows, None, patch) == rows
  {
    var r := MergeRows(rows, None, patch);
    forall k | 0 <= k < |rows| ensures r[k] == rows[k] {
      assert Some(rows[k].id) != None;
    }
  }

  class CategoriesPage {
    var data: seq<Category>
    var title: string
    var description: Option<string>
    var selectedCategory: Option<Category>
    var open: bool
    var editSheetOpen: bool
    var editMode: bool

    /** The first render: `data` holds what was fetched by then, the forms are empty and nothing is selected. */
    constructor (fetched: seq<Category>)
      ensures data == fetched && title == "" && description == Some("")
      ensures selectedCategory == None && !open && !editSheetOpen && !editMode
    {
      data := fetched;
      title := "";
      description := Some("");
      selectedCategory := None;
      open := false;
      editSheetOpen := false;
      editMode := false;
    }

    /** The effect on `categoriesData`: fetched content replaces the list wholesale, an empty list included; no content changes nothing. */
    method SyncFetched(content: Option<seq<Category>>)
      modifies this`data
      ensures content.Some? ==> data == content.value
      ensures content.None? ==> data == old(data)
    {
      if content.Some? {
        data := content.value;
      }
    }

    /** handleCreate: sends the form's title and description; on success appends the new category, closes the dialog and clears the form. */
    method HandleCreate(created: Option<Category>) returns (request: CategoryRequest)
      modifies this`data, this`open, this`title, this`description
      ensures request == CategoryRequest(None, old(title), old(description))
      ensures created.Some? ==> data == old(data) + [created.value] && !open && title == "" && description == Some("")
      ensures created.None? ==> data == old(data) && open == old(open) && title == old(title) && description == old(description)
    {
      request := CategoryRequest(None, title, description);
      if created.Some? {
        data := data + [created.value];
        open := false;
        title := "";
        description := Some("");
      }
    }

    /** The row menu's Edit: selects the category, copies its name and description into the form and opens the edit sheet. */
    method OnEdit(c: Category)
      modifies this`selectedCategory, this`title, this`description, this`editMode, this`editSheetOpen
      ensures selectedCategory == Some(c) && title == c.name && description == c.desc
      ensures editMode && editSheetOpen
    {
      selectedCategory := Some(c);
      title := c.name;
      description := c.desc;
      editMode := true;
      editSheetOpen := true;
    }

    /**
     * handleUpdate: nothing without a selection; otherwise the request names
     * the selected category, and on success the returned fields are merged
     * into the rows whose id equals the `id` argument, the form is cleared
     * and the sheet closes.
     */
    method HandleUpdate(id: Option<string>, updated: Option<CategoryPatch>) returns (request: Option<CategoryRequest>)
      modifies this`data, this`title, this`description, this`selectedCategory, this`editSheetOpen, this`editMode
      ensures old(selectedCategory).None? ==>
        && request == None && data == old(data) && title == old(title)
        && description == old(description) && selectedCategory == old(selectedCategory)
        && editSheetOpen == old(editSheetOpen) && editMode == old(editMode)
      ensures old(selectedCategory).Some? ==> request == Some(CategoryRequest(Some(old(selectedCategory).value.id), old(title), old(description)))
      ensures old(selectedCategory).Some? && updated.Some? ==>
        && data == MergeRows(old(data), id, updated.value)
        && title == "" && description == Some("")
        && selectedCategory == None && !editSheetOpen && !editMode
      ensures old(selectedCategory).Some? && updated.None? ==>
        && data == old(data) && title == old(title) && description == old(description)
        && selectedCategory == old(selectedCategory) && editSheetOpen == old(editSheetOpen) && editMode == old(editMode)
    {
      if selectedCategory.None? {
        return None;
      }
      request := Some(CategoryRequest(Some(selectedCategory.value.id), title, description));
      if updated.Some? {
        data := MergeRows(data, id, updated.value);
        title := "";
        description := Some("");
        selectedCategory := None;
        editSheetOpen := false;
        editMode := false;
      }
    }

    /** handleDelete: rows with that id go only once the server has deleted the category. */
    method HandleDelete(categoryId: string, serverAccepts: bool)
      modifies this`data
      ensures serverAccepts ==> data == Without(old(data), CategoryId, categoryId)
      ensures !serverAccepts ==> data == old(data)
    {
      if serverAccepts {
        data := Without(data, CategoryId, categoryId);
      }
    }
  }

  /**
   * The edit form calls handleUpdate as its onSubmit handler, so `id` is
   * undefined: even a successful update leaves every row as it was, while the
   * selection is dropped and the sheet closes.
   */
  method SubmitEditForm(fetched: seq<Category>, c: Category, newTitle: string, returned: CategoryPatch)
    returns (rows: seq<Category>, sent: Option<CategoryRequest>, sheetClosed: bool)
    ensures rows == fetched
    ensures sheetClosed
    ensures sent == Some(CategoryRequest(Some(c.id), newTitle, c.desc))
  {
    var page := new CategoriesPage(fetched);
    page.OnEdit(c);
    page.title := newTitle;
    sent := page.HandleUpdate(None, Some(returned));
    MergeWithoutIdKeepsRows(fetched, returned);
    rows := page.data;
    sheetClosed := page.selectedCategory.None? && !page.editSheetOpen;
  }

  /** Passing the selected category's id, as evidently intended, merges the answer into that category's rows. */
  method SubmitEditFormWithId(fetched: seq<Category>, c: Category, newTitle: string, returned: CategoryPatch)
    returns (rows: seq<Category>)
    ensures rows == MergeRows(fetched, Some(c.id), returned)
    ensures forall k :: 0 <= k < |fetched| && fetched[k].id == c.id ==> rows[k] == Merge(fetched[k], returned)
  {
    var page := new CategoriesPage(fetched);
    page.OnEdit(c);
    page.title := newTitle;
    var _ := page.HandleUpdate(Some(page.selectedCategory.value.id), Some(returned));
    rows := page.data;
  }
}
