/**
 * The catalog pages `src/pages/Machines.jsx` and `src/pages/MachineSubtypes.jsx`:
 * a list with a search box and a one-field modal for adding and editing. The
 * two pages differ only in the endpoint they talk to.
 */
module CatalogPages {
  import opened Values
  import opened Seqs
  import opened CatalogModel
  import CatalogRoutes

  /** A row of the list as the page received it. */
  datatype Item = Item(id: int, name: string)

  /** Which of the two pages. */
  datatype Page = MachinesPage | MachineSubtypesPage

  /** The path segment each page fetches and posts to. */
  function Endpoint(p: Page): string {
    match p
    case MachinesPage => "machines"
    case MachineSubtypesPage => "machine-subtypes"
  }

  datatype Verb = Post | Put | Delete

  /** A request the page sends: `/<endpoint>` or `/<endpoint>/<id>`, with the body's `name`. */
  datatype Request = Request(verb: Verb, endpoint: string, id: Option<int>, name: string)

  /** `item` passes the search: its lower-cased name contains the lower-cased search text. */
  predicate Matches(item: Item, searchText: string, lower: string -> string) {
    Contains(lower(item.name), lower(searchText))
  }

  /**
   * `getFilteredData`: an empty search shows every item; otherwise the items
   * whose name matches, in list order. `lower` stands for `toLowerCase`.
   */
  function GetFilteredData(items: seq<Item>, searchText: string, lower: string -> string): (r: seq<Item>)
    ensures searchText == "" ==> r == items
    ensures searchText != "" ==> forall item :: item in r <==> item in items && Matches(item, searchText, lower)
    ensures IsSubseq(r, items) && |r| <= |items|
  {
    if searchText == "" then
      SubseqOfSelf(items);
      items
    else Filter(items, (item: Item) => Matches(item, searchText, lower))
  }

  /** Typing more (a search whose lower-cased text holds the shorter one's) never shows more items. */
  lemma NarrowingSearch(items: seq<Item>, shorter: string, longer: string, lower: string -> string)
    requires longer != ""
    requires Contains(lower(longer), lower(shorter))
    ensures forall item :: item in GetFilteredData(items, longer, lower) ==> item in GetFilteredData(items, shorter, lower)
  {
    forall item | item in GetFilteredData(items, longer, lower)
      ensures item in GetFilteredData(items, shorter, lower)
    {
      ContainsTransitive(lower(item.name), lower(longer), lower(shorter));
    }
  }

  /** The page's state: the list, the search text, and the modal with its form. */
  class CatalogPage {
    const page: Page
    var items: seq<Item>
    var searchText: string
    var modalVisible: bool
    var editMode: bool
    var formName: string

    /** The initial state: nothing loaded, the modal closed, an empty form. */
    constructor(page: Page)
      ensures this.page == page
      ensures items == [] && searchText == "" && !modalVisible && !editMode && formName == ""
    {
      this.page := page;
      items := [];
      searchText := "";
      modalVisible := false;
      editMode := false;
      formName := "";
    }

    /** The rows the table shows. */
    function Shown(lower: string -> string): (r: seq<Item>)
      reads this
      ensures IsSubseq(r, items)
    {
      GetFilteredData(items, searchText, lower)
    }

    /** The first fetch: the list replaced by the fetched rows and the search cleared. */
    method Load(data: seq<Item>)
      modifies this
      ensures items == data && searchText == ""
      ensures modalVisible == old(modalVisible) && editMode == old(editMode) && formName == old(formName)
    {
      items := data;
      searchText := "";
    }

    /** `handleSearch`: only the search text changes. */
    method HandleSearch(value: string)
      modifies this
      ensures searchText == value
      ensures items == old(items) && modalVisible == old(modalVisible) && editMode == old(editMode)
      ensures formName == old(formName)
    {
      searchText := value;
    }

    /** `handleAdd`: the modal opens in add mode with an empty name. */
    method HandleAdd()
      modifies this
      ensures modalVisible && !editMode && formName == ""
      ensures items == old(items) && searchText == old(searchText)
    {
      editMode := false;
      formName := "";
      modalVisible := true;
    }

    /** `handleEdit`: the modal opens in edit mode holding the record's name (and not its id). */
    method HandleEdit(record: Item)
      modifies this
      ensures modalVisible && editMode && formName == record.name
      ensures items == old(items) && searchText == old(searchText)
    {
      editMode := true;
      formName := record.name;
      modalVisible := true;
    }

    /** The input's `onChange`: the form holds the typed name. */
    method HandleNameChange(value: string)
      modifies this
      ensures formName == value
      ensures items == old(items) && searchText == old(searchText) && modalVisible == old(modalVisible)
      ensures editMode == old(editMode)
    {
      formName := value;
    }

    /** `handleCancel`: the modal closes and the form and the mode are reset. */
    method HandleCancel()
      modifies this
      ensures !modalVisible && !editMode && formName == ""
      ensures items == old(items) && searchText == old(searchText)
    {
      modalVisible := false;
      formName := "";
      editMode := false;
    }

    /** The request `handleSubmit` sends: a create whatever the mode. */
    function SubmitRequest(): (r: Request)
      reads this
      ensures r.verb == Post && r.id == None
      ensures r.endpoint == Endpoint(page) && r.name == formName
    {
      Request(Post, Endpoint(page), None, formName)
    }

    /**
     * `handleSubmit`: sends `SubmitRequest()`; when the reply is ok (`ok`), the
     * list becomes the refetched rows and the modal is cancelled, otherwise
     * nothing changes.
     */
    method HandleSubmit(ok: bool, refreshed: seq<Item>) returns (request: Request)
      modifies this
      ensures request == old(SubmitRequest())
      ensures request.verb == Post && request.id == None
      ensures ok ==> items == refreshed && !modalVisible && !editMode && formName == ""
      ensures !ok ==> (items == old(items) && modalVisible == old(modalVisible) && editMode == old(editMode) &&
        formName == old(formName))
      ensures searchText == old(searchText)
    {
      request := SubmitRequest();
      if ok {
        items := refreshed;
        HandleCancel();
      }
    }

    /**
     * `handleDelete`: nothing unless the user confirms; then a delete of the
     * row, and the refetched rows when the reply is ok.
     */
    method HandleDelete(id: int, confirmed: bool, ok: bool, refreshed: seq<Item>) returns (request: Option<Request>)
      modifies this
      ensures !confirmed ==> request == None && items == old(items)
      ensures confirmed ==> request == Some(Request(Delete, Endpoint(page), Some(id), ""))
      ensures confirmed && ok ==> items == refreshed
      ensures confirmed && !ok ==> items == old(items)
      ensures searchText == old(searchText) && modalVisible == old(modalVisible) && editMode == old(editMode)
      ensures formName == old(formName)
    {
      if !confirmed {
        return None;
      }
      request := Some(Request(Delete, Endpoint(page), Some(id), ""));
      if ok {
        items := refreshed;
      }
    }
  }

  /**
   * Editing a row and confirming, as written: the request is a create, so the
   * catalog table gains a new row with the typed name and the edited row keeps
   * its old name.
   */
  method EditSubmitCreates(p: CatalogPage, t: NameTable, record: Item, newName: string, refreshed: seq<Item>)
      returns (request: Request, reply: Reply<CatalogRoutes.Body>)
    requires t.Valid() && record.id in t.names && newName != ""
    modifies p, t
    ensures t.Valid()
    ensures request.verb == Post && request.id == None && request.name == newName
    ensures reply.status == 201
    ensures old(t.nextId) !in old(t.names) && t.names == old(t.names)[old(t.nextId) := SqlText(newName)]
    ensures record.id in t.names && t.names[record.id] == old(t.names[record.id])
  {
    p.HandleEdit(record);
    p.HandleNameChange(newName);
    request := p.SubmitRequest();
    reply := CatalogRoutes.Create(t, Str(request.name));
    var _ := p.HandleSubmit(reply.status == 201, refreshed);
  }

  /**
   * The request the edit dialog is meant to send: an update of the edited row
   * in edit mode, a create in add mode.
   */
  function IntendedRequest(page: Page, editMode: bool, editing: Item, name: string): (r: Request)
    ensures r.endpoint == Endpoint(page) && r.name == name
    ensures editMode ==> r.verb == Put && r.id == Some(editing.id)
    ensures !editMode ==> r.verb == Post && r.id == None
  {
    if editMode then Request(Put, Endpoint(page), Some(editing.id), name)
    else Request(Post, Endpoint(page), None, name)
  }

  /**
   * Editing a row and confirming with the intended request: the edited row
   * takes the typed name and no row is added or removed.
   */
  method EditSubmitUpdates(p: CatalogPage, t: NameTable, k: CatalogRoutes.Kind, record: Item, newName: string)
      returns (request: Request, reply: Reply<CatalogRoutes.Body>)
    requires t.Valid() && record.id in t.names && newName != ""
    modifies p, t
    ensures t.Valid()
    ensures request.verb == Put && request.id == Some(record.id) && request.name == newName
    ensures reply.status == 200
    ensures t.names == old(t.names)[record.id := SqlText(newName)]
    ensures t.names.Keys == old(t.names.Keys)
  {
    p.HandleEdit(record);
    p.HandleNameChange(newName);
    request := IntendedRequest(p.page, p.editMode, record, p.formName);
    reply := CatalogRoutes.Update(t, k, request.id.value, Str(request.name));
  }
}
