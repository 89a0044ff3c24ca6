/**
  The product management page (`src/pages/dashboard/Products.tsx`): the list
  narrowed by category, status and search, the add-product form with its
  validation, and the product record built from the form.
*/
module ProductsPage {
  import opened Common
  import opened Catalog
  import ProductService

  // ---------------------------------------------------------------- list filters

  /** `p.category === selectedCategory` for a category other than "all". */
  predicate InCategory(p: Product, selectedCategory: string) {
    selectedCategory == "all" || p.category == Some(selectedCategory)
  }

  /** `p.status === selectedStatus` for a status other than "all". */
  predicate HasStatus(p: Product, selectedStatus: string) {
    selectedStatus == "all" || p.status == Some(selectedStatus)
  }

  /** The products the category and status selections keep, in order. */
  function ByCategoryAndStatus(products: seq<Product>, selectedCategory: string, selectedStatus: string): seq<Product>
  {
    var byCategory := if selectedCategory != "all" then Filter(products, (p: Product) => p.category == Some(selectedCategory)) else products;
    if selectedStatus != "all" then Filter(byCategory, (p: Product) => p.status == Some(selectedStatus)) else byCategory
  }

  /**
    `applyFilters`: category, then status, then, for a query that is not blank,
    the search on the lower-cased (untrimmed) query. `None` when the search
    reaches a product lacking its name, SKU or category and throws, so the
    shown list is left as it was.
  */
  function ApplyFilters(products: seq<Product>, selectedCategory: string, selectedStatus: string, searchQuery: string): Option<seq<Product>>
  {
    var filtered := ByCategoryAndStatus(products, selectedCategory, selectedStatus);
    if Trim(searchQuery) != "" then ProductService.SearchPass(filtered, ToLower(searchQuery)) else Some(filtered)
  }

  /** What the search keeps: everything for a blank query, otherwise the matches. */
  predicate Found(p: Product, searchQuery: string) {
    Trim(searchQuery) == "" || ProductService.Matches(p, ToLower(searchQuery)) == Some(true)
  }

  lemma ByCategoryAndStatusFacts(products: seq<Product>, selectedCategory: string, selectedStatus: string)
    ensures var f := ByCategoryAndStatus(products, selectedCategory, selectedStatus);
            SubSeq(f, products)
            && (forall p :: p in f <==> p in products && InCategory(p, selectedCategory) && HasStatus(p, selectedStatus))
  {
    var byCategory := if selectedCategory != "all" then Filter(products, (p: Product) => p.category == Some(selectedCategory)) else products;
    if selectedCategory != "all" {
      FilterMembers(products, (p: Product) => p.category == Some(selectedCategory));
      FilterSubSeq(products, (p: Product) => p.category == Some(selectedCategory));
    } else {
      SubSeqRefl(products);
    }
    if selectedStatus != "all" {
      FilterMembers(byCategory, (p: Product) => p.status == Some(selectedStatus));
      FilterSubSeq(byCategory, (p: Product) => p.status == Some(selectedStatus));
      SubSeqTrans(Filter(byCategory, (p: Product) => p.status == Some(selectedStatus)), byCategory, products);
    }
  }

  /**
    The shown list is an order-preserving sub-list of the products; a product is
    in it exactly when it passes the category, status and search tests; and the
    search throws exactly when a product that passed the first two tests lacks
    a field the search reads.
  */
  lemma ApplyFiltersFacts(products: seq<Product>, selectedCategory: string, selectedStatus: string, searchQuery: string)
    ensures var r := ApplyFilters(products, selectedCategory, selectedStatus, searchQuery);
            (r.Some? ==> SubSeq(r.value, products))
            && (r.Some? ==> forall p :: p in r.value <==>
                  p in products && InCategory(p, selectedCategory) && HasStatus(p, selectedStatus) && Found(p, searchQuery))
            && (r.None? <==>
                  (Trim(searchQuery) != "" &&
                   exists p :: p in products && InCategory(p, selectedCategory) && HasStatus(p, selectedStatus)
                               && ProductService.Matches(p, ToLower(searchQuery)).None?))
  {
    var filtered := ByCategoryAndStatus(products, selectedCategory, selectedStatus);
    ByCategoryAndStatusFacts(products, selectedCategory, selectedStatus);
    if Trim(searchQuery) != "" {
      var r := ProductService.SearchPass(filtered, ToLower(searchQuery));
      if r.Some? {
        SubSeqTrans(r.value, filtered, products);
        SubSeqMembers(r.value, filtered);
      }
    }
  }

  /** With every filter reset, the whole list is shown. */
  lemma NoFiltersShowsAll(products: seq<Product>)
    ensures ApplyFilters(products, "all", "all", "") == Some(products)
  {
    assert Trim("") == "";
  }

  /** The number of selections other than "all": at most two, and zero only when both are "all". */
  function ActiveFiltersCount(selectedCategory: string, selectedStatus: string): (n: nat)
    ensures n <= 2
    ensures n == 0 <==> selectedCategory == "all" && selectedStatus == "all"
    ensures n == 2 <==> selectedCategory != "all" && selectedStatus != "all"
  {
    (if selectedCategory != "all" then 1 else 0) + (if selectedStatus != "all" then 1 else 0)
  }

  // ---------------------------------------------------------------- the form

  /** The add-product form; every field holds the text typed in. */
  datatype ProductForm = ProductForm(
    name: string,
    sku: string,
    category: string,
    description: string,
    price: string,
    cost: string,
    stock: string,
    reorderLevel: string,
    maxStock: string)

  const EmptyForm := ProductForm("", "", "Shirts", "", "", "", "", "10", "100")

  /** The form keys `handleInputChange` can name. */
  const FormKeys := ["name", "sku", "category", "description", "price", "cost", "stock", "reorderLevel", "maxStock"]

  /** `formData[key]`; `None` for a key the form does not have. */
  function Field(f: ProductForm, key: string): Option<string>
  {
    if key == "name" then Some(f.name)
    else if key == "sku" then Some(f.sku)
    else if key == "category" then Some(f.category)
    else if key == "description" then Some(f.description)
    else if key == "price" then Some(f.price)
    else if key == "cost" then Some(f.cost)
    else if key == "stock" then Some(f.stock)
    else if key == "reorderLevel" then Some(f.reorderLevel)
    else if key == "maxStock" then Some(f.maxStock)
    else None
  }

  /**
    `{...formData, [name]: value}`. A key outside the form adds an entry that
    nothing reads, so the nine fields stay as they were.
  */
  function WithField(f: ProductForm, key: string, value: string): (r: ProductForm)
    ensures key in FormKeys ==> Field(r, key) == Some(value)
    ensures forall k :: k != key ==> Field(r, k) == Field(f, k)
    ensures key !in FormKeys ==> r == f
  {
    if key == "name" then f.(name := value)
    else if key == "sku" then f.(sku := value)
    else if key == "category" then f.(category := value)
    else if key == "description" then f.(description := value)
    else if key == "price" then f.(price := value)
    else if key == "cost" then f.(cost := value)
    else if key == "stock" then f.(stock := value)
    else if key == "reorderLevel" then f.(reorderLevel := value)
    else if key == "maxStock" then f.(maxStock := value)
    else f
  }

  /**
    What `parseFloat` and `parseInt` return for the numeric fields of a form,
    `None` for `NaN`. Number parsing is not part of this model; these are the
    parser's answers, given as inputs.
  */
  datatype Parsed = Parsed(price: Option<real>, cost: Option<real>, stock: Option<int>, reorderLevel: Option<int>, maxStock: Option<int>)

  const NameRequired := "Product name is required"
  const SkuRequired := "SKU is required"
  const PriceRequired := "Valid price is required"
  const StockRequired := "Valid stock quantity is required"

  /** `!price || parseFloat(price) <= 0`; `NaN <= 0` is false, so an unparsable price passes. */
  predicate BadPrice(f: ProductForm, n: Parsed) {
    f.price == "" || (n.price.Some? && n.price.value <= 0.0)
  }

  /** `!stock || parseInt(stock) < 0`; an unparsable stock passes. */
  predicate BadStock(f: ProductForm, n: Parsed) {
    f.stock == "" || (n.stock.Some? && n.stock.value < 0)
  }

  /** `validateForm`: the message of the first failing check, `None` when the form passes. */
  function ValidateForm(f: ProductForm, n: Parsed): (r: Option<string>)
    ensures r == Some(NameRequired) <==> Trim(f.name) == ""
    ensures r == Some(SkuRequired) <==> Trim(f.name) != "" && Trim(f.sku) == ""
    ensures r == Some(PriceRequired) <==> Trim(f.name) != "" && Trim(f.sku) != "" && BadPrice(f, n)
    ensures r == Some(StockRequired) <==> Trim(f.name) != "" && Trim(f.sku) != "" && !BadPrice(f, n) && BadStock(f, n)
    ensures r.None? <==> Trim(f.name) != "" && Trim(f.sku) != "" && !BadPrice(f, n) && !BadStock(f, n)
  {
    if Trim(f.name) == "" then Some(NameRequired)
    else if Trim(f.sku) == "" then Some(SkuRequired)
    else if BadPrice(f, n) then Some(PriceRequired)
    else if BadStock(f, n) then Some(StockRequired)
    else None
  }

  /** `parseInt(s) || d`: zero and `NaN` both fall back. */
  function IntOr(v: Option<int>, d: int): (r: int)
    ensures v.Some? && v.value != 0 ==> r == v.value
    ensures v.None? || v.value == 0 ==> r == d
  {
    if v.Some? && v.value != 0 then v.value else d
  }

  /** The `productData` record built from a form that passed validation. */
  function BuildProductData(f: ProductForm, n: Parsed): (p: Product)
  {
    Product(
      id := None,
      name := Some(Trim(f.name)),
      sku := Some(ToUpper(Trim(f.sku))),
      category := Some(f.category),
      description := Some(Trim(f.description)),
      price := n.price,
      cost := if f.cost != "" then n.cost else Some(0.0),
      stock := n.stock,
      reorderLevel := Some(IntOr(n.reorderLevel, 10)),
      maxStock := Some(IntOr(n.maxStock, 100)),
      status := Some(if n.stock.Some? && n.stock.value > 0 then "Active" else "Out of Stock"),
      eventId := None,
      stockByEvent := None,
      createdAt := None,
      updatedAt := None)
  }

  /** The built record's text: name and description trimmed, SKU trimmed and upper-cased. */
  lemma BuildProductTextFacts(f: ProductForm, n: Parsed)
    ensures var p := BuildProductData(f, n);
            p.name == Some(Trim(f.name)) && p.description == Some(Trim(f.description))
            && p.category == Some(f.category)
            && p.sku == Some(ToUpper(Trim(f.sku))) && |p.sku.value| == |Trim(f.sku)|
            && forall i :: 0 <= i < |p.sku.value| ==> !('a' <= p.sku.value[i] <= 'z')
  {
    ToUpperHasNoLower(Trim(f.sku));
  }

  /**
    The built record's numbers: cost 0 for a blank cost; reorder level and
    maximum falling back to 10 and 100 for zero or unparsable input; status
    Active exactly for a positive stock, Out of Stock otherwise.
  */
  lemma BuildProductNumberFacts(f: ProductForm, n: Parsed)
    ensures var p := BuildProductData(f, n);
            (f.cost == "" ==> p.cost == Some(0.0))
            && (f.cost != "" ==> p.cost == n.cost)
            && p.price == n.price && p.stock == n.stock
            && (n.reorderLevel.None? || n.reorderLevel.value == 0 ==> p.reorderLevel == Some(10))
            && (n.reorderLevel.Some? && n.reorderLevel.value != 0 ==> p.reorderLevel == n.reorderLevel)
            && (n.maxStock.None? || n.maxStock.value == 0 ==> p.maxStock == Some(100))
            && (n.maxStock.Some? && n.maxStock.value != 0 ==> p.maxStock == n.maxStock)
            && (p.status == Some("Active") <==> n.stock.Some? && n.stock.value > 0)
            && (p.status == Some("Out of Stock") <==> !(n.stock.Some? && n.stock.value > 0))
  {
  }

  /**
    A form that passes validation yields a record the backend's create check
    accepts on name and SKU: both non-empty; and its price, when parsed, is
    positive and its stock, when parsed, not negative.
  */
  lemma ValidFormBuildsValidProduct(f: ProductForm, n: Parsed)
    requires ValidateForm(f, n).None?
    ensures var p := BuildProductData(f, n);
            p.name.Some? && p.name.value != "" && p.sku.Some? && p.sku.value != ""
            && (p.price.Some? ==> p.price.value > 0.0)
            && (p.stock.Some? ==> p.stock.value >= 0)
  {
  }

  // ---------------------------------------------------------------- page state

  /** The page's filter and form state. */
  class Page {
    var products: seq<Product>
    var filtered: seq<Product>
    var selectedCategory: string
    var selectedStatus: string
    var searchQuery: string
    var form: ProductForm
    var dialogOpen: bool

    constructor()
      ensures products == [] && filtered == []
      ensures selectedCategory == "all" && selectedStatus == "all" && searchQuery == ""
      ensures form == EmptyForm && !dialogOpen
    {
      products, filtered := [], [];
      selectedCategory, selectedStatus, searchQuery := "all", "all", "";
      form, dialogOpen := EmptyForm, false;
    }

    function ActiveFilters(): nat
      reads this
    {
      ActiveFiltersCount(selectedCategory, selectedStatus)
    }

    /** `resetFilters`. */
    method ResetFilters()
      modifies this
      ensures selectedCategory == "all" && selectedStatus == "all" && searchQuery == ""
      ensures ActiveFilters() == 0
      ensures products == old(products) && filtered == old(filtered) && form == old(form) && dialogOpen == old(dialogOpen)
    {
      selectedCategory, selectedStatus, searchQuery := "all", "all", "";
    }

    /** The filter effect: recompute the shown list, or keep it when the search throws. */
    method Refilter()
      modifies this
      ensures var r := ApplyFilters(products, selectedCategory, selectedStatus, searchQuery);
              filtered == if r.Some? then r.value else old(filtered)
      ensures SubSeq(filtered, products) || filtered == old(filtered)
      ensures products == old(products) && selectedCategory == old(selectedCategory)
      ensures selectedStatus == old(selectedStatus) && searchQuery == old(searchQuery)
      ensures form == old(form) && dialogOpen == old(dialogOpen)
    {
      ApplyFiltersFacts(products, selectedCategory, selectedStatus, searchQuery);
      var r := ApplyFilters(products, selectedCategory, selectedStatus, searchQuery);
      if r.Some? {
        filtered := r.value;
      }
    }

    /** `handleInputChange`: only the named field changes. */
    method HandleInputChange(key: string, value: string)
      modifies this
      ensures form == WithField(old(form), key, value)
      ensures products == old(products) && filtered == old(filtered) && dialogOpen == old(dialogOpen)
      ensures selectedCategory == old(selectedCategory) && selectedStatus == old(selectedStatus) && searchQuery == old(searchQuery)
    {
      form := WithField(form, key, value);
    }

    /** `handleCategoryChange`. */
    method HandleCategoryChange(value: string)
      modifies this
      ensures form == old(form).(category := value)
      ensures products == old(products) && filtered == old(filtered) && dialogOpen == old(dialogOpen)
      ensures selectedCategory == old(selectedCategory) && selectedStatus == old(selectedStatus) && searchQuery == old(searchQuery)
    {
      form := form.(category := value);
    }

    /** `resetForm`. */
    method ResetForm()
      modifies this
      ensures form == EmptyForm
      ensures products == old(products) && filtered == old(filtered) && dialogOpen == old(dialogOpen)
      ensures selectedCategory == old(selectedCategory) && selectedStatus == old(selectedStatus) && searchQuery == old(searchQuery)
    {
      form := EmptyForm;
    }

    /**
      `handleAddProduct`: a form that fails validation sends nothing and changes
      nothing; otherwise the built record is sent, and when the create call
      succeeds the dialog closes and the form is cleared. `n` is what the
      parsers make of the current form; `created` is the create call's outcome.
      Reloading the list afterwards is a read of the store and is not modelled.
    */
    method HandleAddProduct(n: Parsed, created: bool) returns (message: Option<string>, sent: Option<Product>)
      modifies this
      ensures ValidateForm(old(form), n).Some? ==>
                message == ValidateForm(old(form), n) && sent.None? && form == old(form) && dialogOpen == old(dialogOpen)
      ensures ValidateForm(old(form), n).None? ==> message.None? && sent == Some(BuildProductData(old(form), n))
      ensures ValidateForm(old(form), n).None? && created ==> form == EmptyForm && !dialogOpen
      ensures ValidateForm(old(form), n).None? && !created ==> form == old(form) && dialogOpen == old(dialogOpen)
      ensures products == old(products) && filtered == old(filtered)
      ensures selectedCategory == old(selectedCategory) && selectedStatus == old(selectedStatus) && searchQuery == old(searchQuery)
    {
      message := ValidateForm(form, n);
      if message.Some? {
        sent := None;
        return;
      }
      sent := Some(BuildProductData(form, n));
      if created {
        dialogOpen := false;
        form := EmptyForm;
      }
    }
  }
}
