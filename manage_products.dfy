/** The admin products table: add and edit through a modal form, soft delete, and a
    five-row pager with Previous and Next buttons. */
module ManageProducts {
  import opened Wrappers
  import opened Seqs
  import opened Paging

  /** The editable fields of a product, as the form holds them (text inputs). */
  datatype Fields = Fields(name: string, brand: string, price: string, category: string, image: string)

  const EmptyFields := Fields("", "", "", "", "")

  /** A product row on the server; `active` is missing on rows created before soft delete existed. */
  datatype ProductRecord = ProductRecord(id: int, fields: Fields, active: Option<bool>)

  /** `formData`: empty fields, or a whole product row after Edit. */
  datatype Draft = Draft(id: Option<int>, fields: Fields, active: Option<bool>)

  const EmptyForm := Draft(None, EmptyFields, None)

  function DraftOf(p: ProductRecord): Draft {
    Draft(Some(p.id), p.fields, p.active)
  }

  datatype Field = Name | Brand | Price | Category | Image

  /** `{ ...prev, [name]: value }`. */
  function WithField(f: Fields, field: Field, value: string): Fields {
    match field
    case Name => f.(name := value)
    case Brand => f.(brand := value)
    case Price => f.(price := value)
    case Category => f.(category := value)
    case Image => f.(image := value)
  }

  datatype Request =
    | GetProducts
    | PutProduct(id: int, body: Draft)
    | PostProduct(body: Draft)
    | PatchInactive(id: int)

  const RequiredMessage := "Please fill all required fields"
  const DuplicateMessage := "Duplicate product"
  const UpdatedMessage := "Product updated"
  const AddedMessage := "Product added"
  const SaveErrorMessage := "Error saving product"
  const SoftDeletedMessage := "Product soft deleted"

  /** `!name || !price || !category`. */
  predicate MissingRequired(f: Fields) {
    f.name == "" || f.price == "" || f.category == ""
  }

  predicate SameProduct(p: ProductRecord, f: Fields) {
    p.fields.name == f.name && p.fields.category == f.category
  }

  /** `products.find(p => p.name === name && p.category === category)`, over every row. */
  function IsDuplicate(products: seq<ProductRecord>, f: Fields): (r: bool)
    ensures r <==> exists k | 0 <= k < |products| :: SameProduct(products[k], f)
  {
    FindIndex(products, (p: ProductRecord) => SameProduct(p, f)).Some?
  }

  /** `active !== false`: a missing flag counts as listed. */
  predicate IsListed(p: ProductRecord) {
    p.active != Some(false)
  }

  function Listed(products: seq<ProductRecord>): seq<ProductRecord> {
    Filter(products, IsListed)
  }

  /** The server's row list after the `PATCH { active: false }` of `id`. */
  function SoftDeleted(products: seq<ProductRecord>, id: int): (r: seq<ProductRecord>)
    ensures |r| == |products|
    ensures forall k | 0 <= k < |products| ::
      r[k] == if products[k].id == id then products[k].(active := Some(false)) else products[k]
  {
    Map(products, (p: ProductRecord) => if p.id == id then p.(active := Some(false)) else p)
  }

  /** A soft delete hides the product from the table but keeps its row, so adding it
      again under the same name and category is still refused as a duplicate; the
      other products stay listed as before. */
  lemma SoftDeleteHidesButBlocks(products: seq<ProductRecord>, k: nat)
    requires k < |products|
    ensures var after := SoftDeleted(products, products[k].id);
      && (forall p | p in Listed(after) :: p.id != products[k].id)
      && IsDuplicate(after, products[k].fields)
      && (forall p | p in Listed(products) && p.id != products[k].id :: p in Listed(after))
  {
    var id := products[k].id;
    var after := SoftDeleted(products, id);
    assert SameProduct(after[k], products[k].fields);
    forall p | p in Listed(products) && p.id != id
      ensures p in Listed(after)
    {
      var j :| 0 <= j < |products| && products[j] == p;
      assert after[j] == p;
    }
  }

  /** `totalPages > 1`: the pager, and with it both buttons, exists only then. */
  predicate PagerShown(totalPages: int) {
    totalPages > 1
  }

  /** Whether the Previous and Next buttons are clickable, given the page numbers. */
  predicate PrevEnabled(currentPage: int) {
    currentPage != 1
  }

  predicate NextEnabled(currentPage: int, totalPages: int) {
    currentPage != totalPages
  }

  /** The pager only offers pages inside `1..totalPages` while the current page is one of them. */
  lemma PagerStaysInRange(currentPage: int, totalPages: int)
    requires 1 <= currentPage <= totalPages
    ensures PrevEnabled(currentPage) ==> 1 <= currentPage - 1 <= totalPages
    ensures NextEnabled(currentPage, totalPages) ==> 1 <= currentPage + 1 <= totalPages
  {
  }

  /** As written nothing moves the page back when a delete shrinks the list: with six
      products on page 2, soft-deleting the sixth leaves page 2 empty while the pager,
      shown only for more than one page, is gone. */
  lemma PageStrandedAfterDelete(products: seq<ProductRecord>)
    requires |products| == 6 && forall k | 0 <= k < 6 :: products[k].active == Some(true)
    requires forall i, j | 0 <= i < j < 6 :: products[i].id != products[j].id
    ensures var after := Listed(SoftDeleted(products, products[5].id));
      |after| == 5 && TotalPages(|after|) == 1 && PageOf(after, 2) == []
  {
    var after := SoftDeleted(products, products[5].id);
    assert after == products[..5] + [products[5].(active := Some(false))];
    FilterConcat(products[..5], [products[5].(active := Some(false))], IsListed);
    FilterAll(products[..5], IsListed);
    assert Filter([products[5].(active := Some(false))], IsListed) == [];
  }

  /** The page to show, evidently intended: back to the last page when the current one
      no longer exists, and to 1 when nothing is left. */
  function ClampedPage(currentPage: int, rows: nat): (page: int)
    ensures 1 <= page
    ensures rows > 0 ==> page <= TotalPages(rows)
    ensures 1 <= currentPage <= TotalPages(rows) ==> page == currentPage
  {
    if currentPage > TotalPages(rows) then (if rows == 0 then 1 else TotalPages(rows))
    else if currentPage < 1 then 1
    else currentPage
  }

  /** With the page clamped, the table is never empty while some product is listed. */
  lemma ClampedPageNeverEmpty<T>(rows: seq<T>, currentPage: int)
    requires |rows| > 0
    ensures 0 < |PageOf(rows, ClampedPage(currentPage, |rows|))| <= PageSize
  {
    PageContents(rows, ClampedPage(currentPage, |rows|));
  }

  class ProductAdmin {
    var products: seq<ProductRecord>
    var showModal: bool
    var editProduct: Option<ProductRecord>
    var formData: Draft
    var currentPage: int

    constructor ()
      ensures products == [] && !showModal && editProduct.None? && formData == EmptyForm && currentPage == 1
    {
      products, showModal, editProduct, formData, currentPage := [], false, None, EmptyForm, 1;
    }

    /** `filteredProducts`. */
    function ListedProducts(): seq<ProductRecord>
      reads this
    {
      Listed(products)
    }

    function PageCount(): nat
      reads this
    {
      TotalPages(|ListedProducts()|)
    }

    /** `paginatedProducts`: at most five rows, all of them listed products. */
    function Paginated(): (rows: seq<ProductRecord>)
      reads this
      ensures |rows| <= PageSize
      ensures forall p | p in rows :: p in products && IsListed(p)
    {
      var rows := PageOf(ListedProducts(), currentPage);
      PageAtMostFive(ListedProducts(), currentPage);
      assert forall p | p in rows :: p in ListedProducts() by {
        forall p | p in rows ensures p in ListedProducts() {
          var k :| 0 <= k < |rows| && rows[k] == p;
          var from := SliceIndex((currentPage - 1) * PageSize, |ListedProducts()|);
          assert rows[k] == ListedProducts()[from + k];
        }
      }
      rows
    }

    /** `fetchProducts`: the fetched list replaces `products`; a failed fetch keeps it. */
    method FetchProducts(reply: Option<seq<ProductRecord>>) returns (req: Request)
      modifies this`products
      ensures req == GetProducts
      ensures products == if reply.Some? then reply.value else old(products)
    {
      req := GetProducts;
      if reply.Some? {
        products := reply.value;
      }
    }

    /** `handleInputChange`: one field of the form changes. */
    method HandleInputChange(field: Field, value: string)
      modifies this`formData
      ensures formData == old(formData).(fields := WithField(old(formData).fields, field, value))
    {
      formData := formData.(fields := WithField(formData.fields, field, value));
    }

    /** The "+ Add New Product" button: opens the modal out of edit mode, keeping whatever the form holds. */
    method OpenAdd()
      modifies this`showModal, this`editProduct
      ensures showModal && editProduct.None?
    {
      showModal := true;
      editProduct := None;
    }

    /** `handleEdit`: the form takes the whole row and the modal opens in edit mode. */
    method HandleEdit(product: ProductRecord)
      modifies this`editProduct, this`formData, this`showModal
      ensures editProduct == Some(product) && formData == DraftOf(product) && showModal
    {
      editProduct := Some(product);
      formData := DraftOf(product);
      showModal := true;
    }

    /** The Cancel button. */
    method CloseModal()
      modifies this`showModal
      ensures !showModal
    {
      showModal := false;
    }

    /** `handleAddOrUpdate`. A missing required field, or a new product with the name and
        category of any existing row, stops with a message and sends nothing. Otherwise
        an edit is PUT to the edited id and an addition is POSTed with `active: true`; when
        `fetch` resolves (whatever its status) the form is emptied, the modal closed,
        edit mode left and the list fetched again (`refetch`); a network error shows
        the save error and changes nothing. */
    method HandleAddOrUpdate(outcome: FetchOutcome, refetch: Option<seq<ProductRecord>>)
      returns (reqs: seq<Request>, message: string)
      modifies this`products, this`showModal, this`editProduct, this`formData
      ensures MissingRequired(old(formData).fields) ==>
        reqs == [] && message == RequiredMessage && unchanged(this)
      ensures !MissingRequired(old(formData).fields) && old(editProduct).None?
              && IsDuplicate(old(products), old(formData).fields) ==>
        reqs == [] && message == DuplicateMessage && unchanged(this)
      ensures reqs != [] ==>
        reqs[0] == (if old(editProduct).Some? then PutProduct(old(editProduct).value.id, old(formData))
                    else PostProduct(old(formData).(active := Some(true))))
      ensures reqs != [] && outcome.Resolved? ==>
        && reqs == [reqs[0], GetProducts]
        && message == (if old(editProduct).Some? then UpdatedMessage else AddedMessage)
        && formData == EmptyForm && !showModal && editProduct.None?
        && products == (if refetch.Some? then refetch.value else old(products))
      ensures reqs != [] && outcome.Rejected? ==>
        |reqs| == 1 && message == SaveErrorMessage && unchanged(this)
      ensures reqs == [] <==>
        MissingRequired(old(formData).fields) || (old(editProduct).None? && IsDuplicate(old(products), old(formData).fields))
    {
      if MissingRequired(formData.fields) {
        return [], RequiredMessage;
      }
      var first: Request;
      if editProduct.Some? {
        first := PutProduct(editProduct.value.id, formData);
        message := UpdatedMessage;
      } else {
        if IsDuplicate(products, formData.fields) {
          return [], DuplicateMessage;
        }
        first := PostProduct(formData.(active := Some(true)));
        message := AddedMessage;
      }
      if outcome.Rejected? {
        return [first], SaveErrorMessage;
      }
      formData := EmptyForm;
      showModal := false;
      editProduct := None;
      var again := FetchProducts(refetch);
      reqs := [first, again];
    }

    /** `handleDelete`: without confirmation nothing happens; otherwise only
        `active: false` is PATCHed and, once `fetch` resolves, the list is fetched again. */
    method HandleDelete(id: int, confirmed: bool, outcome: FetchOutcome, refetch: Option<seq<ProductRecord>>)
      returns (reqs: seq<Request>)
      modifies this`products
      ensures !confirmed ==> reqs == [] && products == old(products)
      ensures confirmed ==> |reqs| >= 1 && reqs[0] == PatchInactive(id)
      ensures confirmed && outcome.Resolved? ==>
        reqs == [PatchInactive(id), GetProducts] && products == (if refetch.Some? then refetch.value else old(products))
      ensures confirmed && outcome.Rejected? ==> reqs == [PatchInactive(id)] && products == old(products)
    {
      if !confirmed {
        return [];
      }
      reqs := [PatchInactive(id)];
      if outcome.Resolved? {
        var again := FetchProducts(refetch);
        reqs := reqs + [again];
      }
    }

    /** The Previous button: it exists only while the pager is shown and is clickable
        unless on page 1; pressing it anywhere else changes nothing. */
    method PrevPage()
      modifies this`currentPage
      ensures currentPage == if PagerShown(PageCount()) && PrevEnabled(old(currentPage))
        then old(currentPage) - 1 else old(currentPage)
      ensures !PagerShown(PageCount()) ==> currentPage == old(currentPage)
      ensures 1 <= old(currentPage) <= PageCount() ==> 1 <= currentPage <= PageCount()
    {
      if PagerShown(PageCount()) && PrevEnabled(currentPage) {
        currentPage := currentPage - 1;
      }
    }

    /** The Next button: it exists only while the pager is shown and is clickable
        unless on the last page; pressing it anywhere else changes nothing. */
    method NextPage()
      modifies this`currentPage
      ensures currentPage == if PagerShown(PageCount()) && NextEnabled(old(currentPage), PageCount())
        then old(currentPage) + 1 else old(currentPage)
      ensures !PagerShown(PageCount()) ==> currentPage == old(currentPage)
      ensures 1 <= old(currentPage) <= PageCount() ==> 1 <= currentPage <= PageCount()
    {
      if PagerShown(PageCount()) && NextEnabled(currentPage, PageCount()) {
        currentPage := currentPage + 1;
      }
    }
  }
}
