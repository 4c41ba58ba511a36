/** The product catalogue page: the searchable product table, the create/edit
    dialog with its image upload, and the delete confirmation. */
module ProductsPage {
  import opened Common
  import opened Types
  import opened Text
  import Search

  /** The dialog's fields as typed. `price` and `cost` are text inputs holding a
      number (`Empty` when left blank); `initialStock` is what `parseInt` reads
      from its text, `None` when it reads no number. */
  datatype ProductForm = ProductForm(
    name: string,
    description: string,
    barcode: string,
    price: NumberField,
    cost: NumberField,
    category: string,
    imageUrl: string,
    isActive: bool,
    initialStock: Option<int>)

  /** The form for a new product: everything blank, active, initial stock '0'. */
  const BlankForm := ProductForm("", "", "", Empty, Empty, "", "", true, Some(0))

  /** The form pre-filled from a product being edited (`value || ''` for the
      optional fields, the initial stock back at '0'). */
  function FormFor(p: Product): (f: ProductForm)
    ensures f.name == p.name && f.price == Entered(p.price) && f.isActive == p.isActive
    ensures f.initialStock == Some(0)
  {
    ProductForm(p.name, OrBlank(p.description), OrBlank(p.barcode), Entered(p.price),
                if p.cost.Some? then Entered(p.cost.value) else Empty,
                OrBlank(p.category), OrBlank(p.imageUrl), p.isActive, Some(0))
  }

  /** The columns `productsApi.create` and `productsApi.update` send. */
  datatype ProductData = ProductData(
    name: string,
    description: Option<string>,
    barcode: Option<string>,
    price: real,
    cost: Option<real>,
    category: Option<string>,
    imageUrl: Option<string>,
    isActive: bool)

  /** The stored columns of a product, as the edit dialog would send them back. */
  function DataOf(p: Product): ProductData
  {
    ProductData(p.name, p.description, p.barcode, p.price, p.cost, p.category, p.imageUrl, p.isActive)
  }

  /** The required fields are the name and the price. */
  predicate Missing(form: ProductForm)
  {
    form.name == "" || form.price.Empty?
  }

  /** `productData`, built only once the required fields are filled in: each
      empty optional text is sent as `undefined`, an empty cost too. */
  function Submission(form: ProductForm): (r: Option<ProductData>)
    ensures r.None? <==> Missing(form)
    ensures r.Some? ==> r.value.name == form.name && r.value.price == form.price.value
    ensures r.Some? ==> (r.value.description.None? <==> form.description == "")
    ensures r.Some? ==> (r.value.barcode.None? <==> form.barcode == "")
    ensures r.Some? ==> (r.value.category.None? <==> form.category == "")
    ensures r.Some? ==> (r.value.imageUrl.None? <==> form.imageUrl == "")
    ensures r.Some? ==> (r.value.cost.None? <==> form.cost.Empty?)
  {
    if Missing(form) then None
    else
      Some(ProductData(form.name, NonEmpty(form.description), NonEmpty(form.barcode), form.price.value,
                       if form.cost.Entered? then Some(form.cost.value) else None,
                       NonEmpty(form.category), NonEmpty(form.imageUrl), form.isActive))
  }

  /** A blank form cannot be submitted. */
  lemma BlankRejected()
    ensures Submission(BlankForm).None?
  {
  }

  /** Opening a product for editing and saving without changes sends back the
      product's own data, as long as it has a name (the form requires one) and
      its optional texts are absent rather than empty (an empty text is sent
      back as absent). */
  lemma EditRoundTrip(p: Product)
    requires p.name != ""
    requires p.description != Some("") && p.barcode != Some("")
    requires p.category != Some("") && p.imageUrl != Some("")
    ensures Submission(FormFor(p)) == Some(DataOf(p))
  {
    BlankRoundTrip(p.description);
    BlankRoundTrip(p.barcode);
    BlankRoundTrip(p.category);
    BlankRoundTrip(p.imageUrl);
  }

  /** The calls the page makes on the backend. */
  datatype Request =
    | CreateProduct(data: ProductData)
    | UpdateProduct(id: Id, data: ProductData)
    | SeedStock(productId: Id, quantity: int, minQuantity: int)
    | DeleteProduct(id: Id)

  /** The stock record seeded for a new product: `parseInt(initial_stock) || 0`
      units, with a minimum of 10. */
  function Seed(productId: Id, form: ProductForm): (r: Request)
    ensures r.SeedStock? && r.productId == productId && r.minQuantity == 10
    ensures form.initialStock.None? ==> r.quantity == 0
    ensures form.initialStock.Some? ==> r.quantity == form.initialStock.value
  {
    SeedStock(productId, form.initialStock.GetOr(0), 10)
  }

  /** The calls `handleSubmit` makes, in order: none with a required field
      missing; an update of the edited product; or a create followed, when it
      succeeds and returns `newId`, by the stock seed for that id. */
  function SubmitRequests(form: ProductForm, editing: Option<Product>, newId: Id, createOk: bool): (r: seq<Request>)
    ensures r == [] <==> Missing(form)
    ensures editing.Some? && !Missing(form) ==> r == [UpdateProduct(editing.value.id, Submission(form).value)]
    ensures editing.None? && !Missing(form) ==> r[0] == CreateProduct(Submission(form).value)
    ensures forall k :: 0 <= k < |r| && r[k].SeedStock? ==>
      k == 1 && editing.None? && createOk && r[k] == Seed(newId, form)
  {
    match Submission(form)
    case None => []
    case Some(data) =>
      if editing.Some? then [UpdateProduct(editing.value.id, data)]
      else [CreateProduct(data)] + (if createOk then [Seed(newId, form)] else [])
  }

  /** Editing never touches stock. */
  lemma EditSeedsNothing(form: ProductForm, p: Product, newId: Id, createOk: bool)
    ensures forall k :: 0 <= k < |SubmitRequests(form, Some(p), newId, createOk)| ==>
      !SubmitRequests(form, Some(p), newId, createOk)[k].SeedStock?
  {
  }

  /** A file picked for the image. */
  datatype ImageFile = ImageFile(size: int, mimeType: string)

  datatype ImageVerdict = TooLarge | NotAnImage | Accepted

  /** The upload is limited to 1024 * 1024 bytes and to `image/` types; the size
      is checked first. */
  function CheckImage(file: ImageFile): (v: ImageVerdict)
    ensures v == TooLarge <==> file.size > 1048576
    ensures v == NotAnImage <==> file.size <= 1048576 && !StartsWith(file.mimeType, "image/")
    ensures v == Accepted <==> file.size <= 1048576 && StartsWith(file.mimeType, "image/")
  {
    if file.size > 1024 * 1024 then TooLarge
    else if !StartsWith(file.mimeType, "image/") then NotAnImage
    else Accepted
  }

  /** The fields the product search looks at: the name, the barcode, the category. */
  function ProductFields(p: Product): seq<Option<string>>
  {
    [Some(p.name), p.barcode, p.category]
  }

  function FilteredProducts(products: seq<Product>, term: string, lower: string -> string): seq<Product>
  {
    Search.Search(products, ProductFields, term, lower)
  }

  /** A product is listed exactly when its name, barcode or category contains
      the term in lower case; an empty term lists every product. */
  lemma FilteredProductsShows(products: seq<Product>, term: string, lower: string -> string, p: Product)
    ensures p in FilteredProducts(products, term, lower) <==>
      (p in products
       && (Contains(lower(p.name), lower(term))
           || (p.barcode.Some? && Contains(lower(p.barcode.value), lower(term)))
           || (p.category.Some? && Contains(lower(p.category.value), lower(term)))))
    ensures lower(term) == "" ==> FilteredProducts(products, term, lower) == products
  {
    Search.SearchShows(products, ProductFields, term, lower, p);
    Search.AnyFieldThree(Some(p.name), p.barcode, p.category, term, lower);
  }

  datatype Notice =
    | LoadFailed | MissingFields | Saved | SaveFailed | Deleted | DeleteFailed
    | ImageTooLarge | NotImage | ImageUploaded | UploadFailed

  class ProductsPage {
    var products: seq<Product>
    var dialogOpen: bool
    var deleteDialogOpen: bool
    var editing: Option<Product>
    var toDelete: Option<Product>
    var form: ProductForm
    var processing: bool
    var uploading: bool
    var requests: seq<Request>
    var notices: seq<Notice>

    constructor()
      ensures products == [] && !dialogOpen && !deleteDialogOpen && editing == None && toDelete == None
      ensures form == BlankForm && !processing && !uploading && requests == [] && notices == []
    {
      products := [];
      dialogOpen := false;
      deleteDialogOpen := false;
      editing := None;
      toDelete := None;
      form := BlankForm;
      processing := false;
      uploading := false;
      requests := [];
      notices := [];
    }

    /** `loadProducts`: `data` is the catalogue read back, `None` when the read throws. */
    method LoadProducts(data: Option<seq<Product>>)
      modifies this
      ensures data.Some? ==> products == data.value && notices == old(notices)
      ensures data.None? ==> products == old(products) && notices == old(notices) + [LoadFailed]
      ensures dialogOpen == old(dialogOpen) && deleteDialogOpen == old(deleteDialogOpen)
      ensures editing == old(editing) && toDelete == old(toDelete) && form == old(form)
      ensures processing == old(processing) && uploading == old(uploading) && requests == old(requests)
    {
      if data.Some? {
        products := data.value;
      } else {
        notices := notices + [LoadFailed];
      }
    }

    /** `handleOpenDialog`: a product to edit pre-fills the form, none resets it. */
    method OpenDialog(product: Option<Product>)
      modifies this
      ensures editing == product && dialogOpen
      ensures form == (if product.Some? then FormFor(product.value) else BlankForm)
      ensures products == old(products) && deleteDialogOpen == old(deleteDialogOpen) && toDelete == old(toDelete)
      ensures processing == old(processing) && uploading == old(uploading)
      ensures requests == old(requests) && notices == old(notices)
    {
      editing := product;
      form := if product.Some? then FormFor(product.value) else BlankForm;
      dialogOpen := true;
    }

    /** `handleImageUpload`: no file does nothing; a rejected file only shows an
        error; an accepted one is uploaded, and its public address `url` goes
        into the form when the upload succeeds. */
    method ImageUpload(file: Option<ImageFile>, uploadOk: bool, url: string)
      modifies this
      ensures file.None? ==> form == old(form) && notices == old(notices)
      ensures file.Some? && CheckImage(file.value) == TooLarge ==>
        form == old(form) && notices == old(notices) + [ImageTooLarge]
      ensures file.Some? && CheckImage(file.value) == NotAnImage ==>
        form == old(form) && notices == old(notices) + [NotImage]
      ensures file.Some? && CheckImage(file.value) == Accepted ==>
        && form == (if uploadOk then old(form).(imageUrl := url) else old(form))
        && notices == old(notices) + [if uploadOk then ImageUploaded else UploadFailed]
        && !uploading
      ensures file.None? || CheckImage(file.value) != Accepted ==> uploading == old(uploading)
      ensures products == old(products) && dialogOpen == old(dialogOpen) && deleteDialogOpen == old(deleteDialogOpen)
      ensures editing == old(editing) && toDelete == old(toDelete)
      ensures processing == old(processing) && requests == old(requests)
    {
      if file.None? {
        return;
      }
      var verdict := CheckImage(file.value);
      if verdict == TooLarge {
        notices := notices + [ImageTooLarge];
        return;
      }
      if verdict == NotAnImage {
        notices := notices + [NotImage];
        return;
      }
      uploading := true;
      if uploadOk {
        form := form.(imageUrl := url);
        notices := notices + [ImageUploaded];
      } else {
        notices := notices + [UploadFailed];
      }
      uploading := false;
    }

    /** `handleSubmit`. `firstOk` says whether the create or update call
        succeeds (a create returning the id `newId`), `seedOk` whether the
        stock seed succeeds, and `reloaded` is what the reload returns. */
    method HandleSubmit(newId: Id, firstOk: bool, seedOk: bool, reloaded: Option<seq<Product>>)
      modifies this
      ensures requests == old(requests) + SubmitRequests(old(form), old(editing), newId, firstOk)
      ensures Missing(old(form)) ==>
        && notices == old(notices) + [MissingFields]
        && dialogOpen == old(dialogOpen) && products == old(products) && processing == old(processing)
      ensures !Missing(old(form)) && firstOk && (old(editing).Some? || seedOk) ==>
        && !dialogOpen
        && products == (if reloaded.Some? then reloaded.value else old(products))
        && notices == old(notices) + [Saved] + (if reloaded.Some? then [] else [LoadFailed])
        && !processing
      ensures !Missing(old(form)) && !(firstOk && (old(editing).Some? || seedOk)) ==>
        && dialogOpen == old(dialogOpen) && products == old(products)
        && notices == old(notices) + [SaveFailed]
        && !processing
      ensures form == old(form) && editing == old(editing) && toDelete == old(toDelete)
      ensures deleteDialogOpen == old(deleteDialogOpen) && uploading == old(uploading)
    {
      var data := Submission(form);
      if data.None? {
        notices := notices + [MissingFields];
        return;
      }
      processing := true;
      var ok := firstOk;
      if editing.Some? {
        requests := requests + [UpdateProduct(editing.value.id, data.value)];
      } else {
        requests := requests + [CreateProduct(data.value)];
        if firstOk {
          requests := requests + [Seed(newId, form)];
          ok := seedOk;
        }
      }
      if ok {
        notices := notices + [Saved];
        dialogOpen := false;
        LoadProducts(reloaded);
      } else {
        notices := notices + [SaveFailed];
      }
      processing := false;
    }

    /** The table's delete button: remember the product and ask for confirmation. */
    method AskDelete(p: Product)
      modifies this
      ensures toDelete == Some(p) && deleteDialogOpen
      ensures products == old(products) && dialogOpen == old(dialogOpen) && editing == old(editing)
      ensures form == old(form) && processing == old(processing) && uploading == old(uploading)
      ensures requests == old(requests) && notices == old(notices)
    {
      toDelete := Some(p);
      deleteDialogOpen := true;
    }

    /** `handleDelete`: nothing without a product to delete; otherwise one
        delete call, and on success the confirmation closes and the list reloads. */
    method HandleDelete(deleteOk: bool, reloaded: Option<seq<Product>>)
      modifies this
      ensures old(toDelete).None? ==>
        requests == old(requests) && notices == old(notices) && products == old(products)
        && deleteDialogOpen == old(deleteDialogOpen) && processing == old(processing)
      ensures old(toDelete).Some? ==> requests == old(requests) + [DeleteProduct(old(toDelete).value.id)] && !processing
      ensures old(toDelete).Some? && deleteOk ==>
        && !deleteDialogOpen
        && products == (if reloaded.Some? then reloaded.value else old(products))
        && notices == old(notices) + [Deleted] + (if reloaded.Some? then [] else [LoadFailed])
      ensures old(toDelete).Some? && !deleteOk ==>
        && deleteDialogOpen == old(deleteDialogOpen) && products == old(products)
        && notices == old(notices) + [DeleteFailed]
      ensures form == old(form) && editing == old(editing) && toDelete == old(toDelete)
      ensures dialogOpen == old(dialogOpen) && uploading == old(uploading)
    {
      if toDelete.None? {
        return;
      }
      processing := true;
      requests := requests + [DeleteProduct(toDelete.value.id)];
      if deleteOk {
        notices := notices + [Deleted];
        deleteDialogOpen := false;
        LoadProducts(reloaded);
      } else {
        notices := notices + [DeleteFailed];
      }
      processing := false;
    }
  }
}
