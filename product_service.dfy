/**
  The front end's product client (`src/services/productService.ts`): how each
  call turns the server's JSON answer, or a thrown error, into the value the
  pages see; the client-side guard on negative stock; and the text search over
  the product list.
*/
module ProductService {
  import opened Common
  import opened Catalog

  /** The fields of a product-route answer the client reads. */
  datatype Answer = Answer(
    success: bool,
    message: Option<string>,
    error: Option<string>,
    id: Option<string>,
    list: Option<seq<Product>>,
    product: Option<Product>)

  /** What `fetch` + `response.json()` produced: an answer, or an exception with its `message`. */
  datatype Call = Answered(answer: Answer) | Threw(errorMessage: Option<string>)

  /** `{success, message, productId?}`. */
  datatype ServiceResult = ServiceResult(success: bool, message: string, productId: Option<string>)

  /** `getAllProducts`, `getProductsByCategory`, `getLowStockProducts`: `data.data || []`, or `[]`. */
  function ListResult(call: Call): (r: seq<Product>)
    ensures call.Threw? || !call.answer.success ==> r == []
    ensures call.Answered? && call.answer.success && call.answer.list.Some? ==> r == call.answer.list.value
    ensures call.Answered? && call.answer.success && call.answer.list.None? ==> r == []
  {
    match call
    case Answered(a) => if a.success then a.list.GetOr([]) else []
    case Threw(_) => []
  }

  /** `getProductById`: the product on success, otherwise null. */
  function ProductResult(call: Call): (r: Option<Product>)
    ensures r.Some? ==> call.Answered? && call.answer.success && r == call.answer.product
    ensures call.Threw? || !call.answer.success ==> r.None?
  {
    match call
    case Answered(a) => if a.success then a.product else None
    case Threw(_) => None
  }

  /**
    The mapping shared by create, update, delete and stock update: success takes
    the server's message or `ok`, a refusal the server's error or `refused`, a
    thrown error its message or `thrown`.
  */
  function Mapped(call: Call, ok: string, refused: string, thrown: string): (r: ServiceResult)
    requires ok != "" && refused != "" && thrown != ""
    ensures r.success <==> call.Answered? && call.answer.success
    ensures call.Answered? && call.answer.success ==> r.message == OrElse(call.answer.message, ok)
    ensures call.Answered? && !call.answer.success ==> r.message == OrElse(call.answer.error, refused)
    ensures call.Threw? ==> r.message == OrElse(call.errorMessage, thrown)
    ensures r.message != ""
  {
    match call
    case Answered(a) =>
      if a.success then ServiceResult(true, OrElse(a.message, ok), None)
      else ServiceResult(false, OrElse(a.error, refused), None)
    case Threw(msg) => ServiceResult(false, OrElse(msg, thrown), None)
  }

  /** `createProduct`: as `Mapped`, and a success carries the new id. */
  function CreateResult(call: Call): (r: ServiceResult)
    ensures r.success ==> call.Answered? && r.productId == call.answer.id
    ensures r.success <==> call.Answered? && call.answer.success
    ensures r.message == Mapped(call, "Product created successfully", "Failed to create product",
                                "Failed to create product. Check if backend is running.").message
  {
    var o := Mapped(call, "Product created successfully", "Failed to create product",
                    "Failed to create product. Check if backend is running.");
    if o.success then o.(productId := call.answer.id) else o
  }

  function UpdateResult(call: Call): (r: ServiceResult)
  {
    Mapped(call, "Product updated successfully", "Failed to update product", "Failed to update product")
  }

  function DeleteResult(call: Call): (r: ServiceResult)
  {
    Mapped(call, "Product deleted successfully", "Failed to delete product", "Failed to delete product")
  }

  /** The body `updateStock` sends, if it sends one: nothing for a negative stock. */
  function StockRequest(newStock: int): (body: Option<int>)
    ensures body.None? <==> newStock < 0
    ensures body.Some? ==> body.value == newStock
  {
    if newStock < 0 then None else Some(newStock)
  }

  /** `updateStock`: refuses a negative value itself; otherwise maps the server's answer. */
  function UpdateStockResult(newStock: int, call: Call): (r: ServiceResult)
    ensures newStock < 0 ==> r == ServiceResult(false, "Stock cannot be negative", None)
    ensures newStock >= 0 ==> r == Mapped(call, "Stock updated successfully", "Failed to update stock", "Failed to update stock")
  {
    if newStock < 0 then ServiceResult(false, "Stock cannot be negative", None)
    else Mapped(call, "Stock updated successfully", "Failed to update stock", "Failed to update stock")
  }

  /** A negative stock never reaches the server, whatever it would have answered. */
  lemma NegativeStockNeverSent(newStock: int, c1: Call, c2: Call)
    requires newStock < 0
    ensures StockRequest(newStock).None?
    ensures UpdateStockResult(newStock, c1) == UpdateStockResult(newStock, c2)
    ensures !UpdateStockResult(newStock, c1).success
  {
  }

  // ---------------------------------------------------------------- search

  /** `field.toLowerCase().includes(q)`; `None` when the field is missing and the call throws. */
  function FieldHas(field: Option<string>, q: string): Option<bool>
  {
    if field.None? then None else Some(Contains(ToLower(field.value), q))
  }

  /** `name… || sku… || category…`, evaluated left to right and stopping at the first match. */
  function Matches(p: Product, q: string): (r: Option<bool>)
    ensures r == Some(true) ==> (p.name.Some? && Contains(ToLower(p.name.value), q))
                                || (p.sku.Some? && Contains(ToLower(p.sku.value), q))
                                || (p.category.Some? && Contains(ToLower(p.category.value), q))
    ensures p.name.Some? && p.sku.Some? && p.category.Some? ==> r.Some?
    ensures p.name.Some? && p.sku.Some? && p.category.Some? ==>
              (r == Some(true) <==>
                 Contains(ToLower(p.name.value), q) || Contains(ToLower(p.sku.value), q) || Contains(ToLower(p.category.value), q))
  {
    match FieldHas(p.name, q)
    case None => None
    case Some(true) => Some(true)
    case Some(false) =>
      match FieldHas(p.sku, q)
      case None => None
      case Some(true) => Some(true)
      case Some(false) => FieldHas(p.category, q)
  }

  /** The `filter` pass; `None` when the predicate throws on some product. */
  function SearchPass(ps: seq<Product>, q: string): (r: Option<seq<Product>>)
    ensures r.Some? ==> SubSeq(r.value, ps)
    ensures r.Some? ==> forall p :: p in r.value ==> Matches(p, q) == Some(true)
    ensures r.Some? ==> forall p :: p in ps && Matches(p, q) == Some(true) ==> p in r.value
    ensures r.None? <==> exists p :: p in ps && Matches(p, q).None?
  {
    if ps == [] then Some([])
    else
      var rest := SearchPass(ps[1..], q);
      match Matches(ps[0], q)
      case None => None
      case Some(keep) =>
        if rest.None? then None
        else if keep then
          assert ([ps[0]] + rest.value)[1..] == rest.value;
          Some([ps[0]] + rest.value)
        else Some(rest.value)
  }

  /**
    `searchProducts(searchQuery)` over the list `getAllProducts` returned: the
    products whose lower-cased name, SKU or category contains the lower-cased
    query, in order; `[]` when a product lacks a field the test reaches.
  */
  function SearchProducts(all: seq<Product>, searchQuery: string): (r: seq<Product>)
    ensures SubSeq(r, all)
  {
    match SearchPass(all, ToLower(searchQuery))
    case Some(found) => found
    case None => []
  }

  /** An empty query matches every product that has a name. */
  lemma {:induction false} EmptySearchKeepsAll(all: seq<Product>)
    requires forall p :: p in all ==> p.name.Some?
    ensures SearchProducts(all, "") == all
  {
    forall p | p in all ensures Matches(p, "") == Some(true) {
      ContainsEmpty(ToLower(p.name.value));
    }
    SearchPassAll(all, "");
  }

  lemma {:induction false} SearchPassAll(ps: seq<Product>, q: string)
    requires forall p :: p in ps ==> Matches(p, q) == Some(true)
    ensures SearchPass(ps, q) == Some(ps)
  {
    if ps != [] {
      assert ps[0] in ps;
      SearchPassAll(ps[1..], q);
      assert [ps[0]] + ps[1..] == ps;
    }
  }

  /** Products whose three fields are all present are found exactly when one contains the query. */
  lemma SearchExact(all: seq<Product>, searchQuery: string, p: Product)
    requires forall x :: x in all ==> x.name.Some? && x.sku.Some? && x.category.Some?
    requires p in all
    ensures var q := ToLower(searchQuery);
            p in SearchProducts(all, searchQuery) <==>
              Contains(ToLower(p.name.value), q) || Contains(ToLower(p.sku.value), q) || Contains(ToLower(p.category.value), q)
  {
    var q := ToLower(searchQuery);
    assert SearchPass(all, q).Some?;
  }
}
