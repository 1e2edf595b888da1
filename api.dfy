/**
 * The REST client: one request per logical operation against a fixed base
 * address, and the unwrapping of read responses. The HTTP transport is not
 * modelled; what a request settled to is an input.
 */
module Api {
  import opened Wrappers

  /** What a JavaScript `catch` receives: an `Error` object with its message, or any other thrown value. */
  datatype Thrown = ErrorObject(message: string) | OtherValue

  /** How a promise settled. */
  datatype Settled<+T> = Fulfilled(value: T) | Rejected(reason: Thrown)

  /** The message every failed read rejects with. */
  const FetchFailure: string := "An error occurred while fetching data."

  datatype HttpMethod = GET | POST | PUT | DELETE

  /**
   * A request path as the client writes it: a fixed path, or a fixed prefix
   * with an identifier appended verbatim (a template literal ending in `${id}`).
   */
  datatype Path = Fixed(text: string) | WithId(prefix: string, id: string)

  /** The path text sent on the wire. */
  function Url(p: Path): string {
    match p
    case Fixed(t) => t
    case WithId(prefix, id) => prefix + id
  }

  datatype Request = Request(verb: HttpMethod, path: Path)

  /** Every exported call of the client. */
  datatype Operation =
    | Login
    | GetAllProducts | GetProductById(productId: string) | GetProductsByCategory(categoryId: string)
    | AddProduct | UpdateProduct(productId: string) | DeleteProduct(productId: string)
    | GetAllCategories | AddCategory | UpdateCategory(categoryId: string) | DeleteCategory(categoryId: string)
    | GetAllSuppliers | AddSupplier | UpdateSupplier(supplierId: string) | DeleteSupplier(supplierId: string)
    | GetAllCustomers
    | GetAllOrders | UpdateOrderStatus(orderId: string)
    | GetAllFeedbacks | GetProductFeedbacks(productId: string)
    | CreateVoucher | GetAllVouchers | UpdateVoucher(voucherId: string) | DeleteVoucher(voucherId: string)

  /** The route table: the one request each operation issues. */
  function Route(op: Operation): Request {
    Request(MethodOf(op), PathOf(op))
  }

  /** The HTTP method of each call. */
  function MethodOf(op: Operation): HttpMethod {
    match op
    case Login => POST
    case GetAllProducts => GET
    case GetProductById(_) => GET
    case GetProductsByCategory(_) => GET
    case AddProduct => POST
    case UpdateProduct(_) => PUT
    case DeleteProduct(_) => DELETE
    case GetAllCategories => GET
    case AddCategory => POST
    case UpdateCategory(_) => PUT
    case DeleteCategory(_) => DELETE
    case GetAllSuppliers => GET
    case AddSupplier => POST
    case UpdateSupplier(_) => PUT
    case DeleteSupplier(_) => DELETE
    case GetAllCustomers => GET
    case GetAllOrders => GET
    case UpdateOrderStatus(_) => PUT
    case GetAllFeedbacks => GET
    case GetProductFeedbacks(_) => GET
    case CreateVoucher => POST
    case GetAllVouchers => GET
    case UpdateVoucher(_) => PUT
    case DeleteVoucher(_) => DELETE
  }

  /** The path of each call. */
  function PathOf(op: Operation): Path {
    match op
    case Login => Fixed("/users/login")
    case GetAllProducts => Fixed("/products/getallproduct")
    case GetProductById(id) => WithId("/products/getproductID/", id)
    case GetProductsByCategory(id) => WithId("/products/getproductbycate/", id)
    case AddProduct => Fixed("/products/addproduct")
    case UpdateProduct(id) => WithId("/products/update_product/", id)
    case DeleteProduct(id) => WithId("/products/delete/", id)
    case GetAllCategories => Fixed("/categories/getallcate")
    case AddCategory => Fixed("/categories/addCate")
    case UpdateCategory(id) => WithId("/categories/updateCate/", id)
    case DeleteCategory(id) => WithId("/categories/deleteCate/", id)
    case GetAllSuppliers => Fixed("/supplys")
    case AddSupplier => Fixed("/supplys/addSupplier")
    case UpdateSupplier(id) => WithId("/supplys/updateSupplier/", id)
    case DeleteSupplier(id) => WithId("/supplys/deleteSupplier/", id)
    case GetAllCustomers => Fixed("/users/customers")
    case GetAllOrders => Fixed("/carts/all")
    case UpdateOrderStatus(id) => WithId("/carts/status/", id)
    case GetAllFeedbacks => Fixed("/feedbacks/getfeedbacks")
    case GetProductFeedbacks(id) => WithId("/feedbacks/getfeedback/", id)
    case CreateVoucher => Fixed("/vouchers/createVoucher")
    case GetAllVouchers => Fixed("/vouchers")
    case UpdateVoucher(id) => WithId("/vouchers/", id)
    case DeleteVoucher(id) => WithId("/deleteVoucher/", id)
  }

  /** The calls whose body wraps the request in `handleApiResponse`. */
  predicate Unwraps(op: Operation) {
    || op.GetAllProducts? || op.GetProductById? || op.GetProductsByCategory?
    || op.GetAllCategories? || op.GetAllSuppliers? || op.GetAllCustomers?
    || op.GetAllOrders? || op.GetAllFeedbacks? || op.GetProductFeedbacks?
    || op.GetAllVouchers?
  }

  /** What kind of call an operation is, by its name. */
  datatype Kind = Read | SignIn | Create | Update | Remove

  function KindOf(op: Operation): Kind {
    match op
    case Login => SignIn
    case AddProduct | AddCategory | AddSupplier | CreateVoucher => Create
    case UpdateProduct(_) | UpdateCategory(_) | UpdateSupplier(_) | UpdateOrderStatus(_) | UpdateVoucher(_) => Update
    case DeleteProduct(_) | DeleteCategory(_) | DeleteSupplier(_) | DeleteVoucher(_) => Remove
    case _ => Read
  }

  /** The identifier an operation is parameterised by, if any. */
  function ResourceId(op: Operation): Option<string> {
    match op
    case GetProductById(id) => Some(id)
    case GetProductsByCategory(id) => Some(id)
    case UpdateProduct(id) => Some(id)
    case DeleteProduct(id) => Some(id)
    case UpdateCategory(id) => Some(id)
    case DeleteCategory(id) => Some(id)
    case UpdateSupplier(id) => Some(id)
    case DeleteSupplier(id) => Some(id)
    case UpdateOrderStatus(id) => Some(id)
    case GetProductFeedbacks(id) => Some(id)
    case UpdateVoucher(id) => Some(id)
    case DeleteVoucher(id) => Some(id)
    case _ => None
  }

  /**
   * The route table read backwards, as a server's router would: the
   * operation a request stands for, if any.
   */
  function Recognize(req: Request): Option<Operation> {
    match (req.verb, req.path)
    case (GET, Fixed(t)) =>
      if t == "/products/getallproduct" then Some(GetAllProducts)
      else if t == "/categories/getallcate" then Some(GetAllCategories)
      else if t == "/supplys" then Some(GetAllSuppliers)
      else if t == "/users/customers" then Some(GetAllCustomers)
      else if t == "/carts/all" then Some(GetAllOrders)
      else if t == "/feedbacks/getfeedbacks" then Some(GetAllFeedbacks)
      else if t == "/vouchers" then Some(GetAllVouchers)
      else None
    case (GET, WithId(p, id)) =>
      if p == "/products/getproductID/" then Some(GetProductById(id))
      else if p == "/products/getproductbycate/" then Some(GetProductsByCategory(id))
      else if p == "/feedbacks/getfeedback/" then Some(GetProductFeedbacks(id))
      else None
    case (POST, Fixed(t)) =>
      if t == "/users/login" then Some(Login)
      else if t == "/products/addproduct" then Some(AddProduct)
      else if t == "/categories/addCate" then Some(AddCategory)
      else if t == "/supplys/addSupplier" then Some(AddSupplier)
      else if t == "/vouchers/createVoucher" then Some(CreateVoucher)
      else None
    case (PUT, WithId(p, id)) =>
      if p == "/products/update_product/" then Some(UpdateProduct(id))
      else if p == "/categories/updateCate/" then Some(UpdateCategory(id))
      else if p == "/supplys/updateSupplier/" then Some(UpdateSupplier(id))
      else if p == "/carts/status/" then Some(UpdateOrderStatus(id))
      else if p == "/vouchers/" then Some(UpdateVoucher(id))
      else None
    case (DELETE, WithId(p, id)) =>
      if p == "/products/delete/" then Some(DeleteProduct(id))
      else if p == "/categories/deleteCate/" then Some(DeleteCategory(id))
      else if p == "/supplys/deleteSupplier/" then Some(DeleteSupplier(id))
      else if p == "/deleteVoucher/" then Some(DeleteVoucher(id))
      else None
    case _ => None
  }

  /** Reading a route back gives the operation it came from. */
  lemma RecognizeRoute(op: Operation)
    ensures Recognize(Route(op)) == Some(op)
  {
    match MethodOf(op)
    case GET => if PathOf(op).Fixed? { RecognizeListRead(op); } else { RecognizeItemRead(op); }
    case POST => RecognizeCreate(op);
    case PUT => RecognizeUpdate(op);
    case DELETE => RecognizeDelete(op);
  }

  lemma RecognizeListRead(op: Operation)
    requires MethodOf(op) == GET && PathOf(op).Fixed?
    ensures Recognize(Route(op)) == Some(op)
  {
  }

  lemma RecognizeItemRead(op: Operation)
    requires MethodOf(op) == GET && PathOf(op).WithId?
    ensures Recognize(Route(op)) == Some(op)
  {
  }

  lemma RecognizeCreate(op: Operation)
    requires MethodOf(op) == POST
    ensures Recognize(Route(op)) == Some(op)
  {
  }

  lemma RecognizeUpdate(op: Operation)
    requires MethodOf(op) == PUT
    ensures Recognize(Route(op)) == Some(op)
  {
  }

  lemma RecognizeDelete(op: Operation)
    requires MethodOf(op) == DELETE
    ensures Recognize(Route(op)) == Some(op)
  {
  }

  /** The route table is unambiguous: two operations never issue the same request. */
  lemma RouteInjective(a: Operation, b: Operation)
    requires Route(a) == Route(b)
    ensures a == b
  {
    RecognizeRoute(a);
    RecognizeRoute(b);
  }

  /** The literal part of a path: the whole fixed path, or the prefix the id is appended to. */
  function Template(p: Path): string {
    match p
    case Fixed(t) => t
    case WithId(prefix, _) => prefix
  }

  /** The URL text agrees with its template on every position the template covers. */
  lemma UrlAgreesWithTemplate(p: Path, k: nat)
    ensures k < |Template(p)| ==> Url(p)[k] == Template(p)[k]
  {
  }

  /** Two paths whose templates differ at a position both cover never give the same URL text. */
  lemma DifferAt(p: Path, q: Path, k: nat)
    requires k < |Template(p)| && k < |Template(q)| && Template(p)[k] != Template(q)[k]
    ensures Url(p) != Url(q)
  {
    UrlAgreesWithTemplate(p, k);
    UrlAgreesWithTemplate(q, k);
  }

  /**
   * The letter after the leading `/` of an operation's path, which names the
   * resource it addresses. Under one method only a few routes share it.
   */
  function Initial(op: Operation): char {
    match op
    case Login | GetAllCustomers => 'u'
    case GetAllProducts | GetProductById(_) | GetProductsByCategory(_) | AddProduct | UpdateProduct(_) | DeleteProduct(_) => 'p'
    case GetAllCategories | AddCategory | UpdateCategory(_) | DeleteCategory(_) | GetAllOrders | UpdateOrderStatus(_) => 'c'
    case GetAllSuppliers | AddSupplier | UpdateSupplier(_) | DeleteSupplier(_) => 's'
    case GetAllFeedbacks | GetProductFeedbacks(_) => 'f'
    case CreateVoucher | GetAllVouchers | UpdateVoucher(_) => 'v'
    case DeleteVoucher(_) => 'd'
  }

  lemma InitialOfTemplate(op: Operation)
    ensures 1 < |Template(PathOf(op))| && Template(PathOf(op))[1] == Initial(op)
  {
    match MethodOf(op)
    case GET => InitialOfReadTemplate(op);
    case POST => InitialOfCreateTemplate(op);
    case PUT => InitialOfUpdateTemplate(op);
    case DELETE => InitialOfDeleteTemplate(op);
  }

  lemma InitialOfReadTemplate(op: Operation)
    requires MethodOf(op) == GET
    ensures 1 < |Template(PathOf(op))| && Template(PathOf(op))[1] == Initial(op)
  {
  }

  lemma InitialOfCreateTemplate(op: Operation)
    requires MethodOf(op) == POST
    ensures 1 < |Template(PathOf(op))| && Template(PathOf(op))[1] == Initial(op)
  {
  }

  lemma InitialOfUpdateTemplate(op: Operation)
    requires MethodOf(op) == PUT
    ensures 1 < |Template(PathOf(op))| && Template(PathOf(op))[1] == Initial(op)
  {
  }

  lemma InitialOfDeleteTemplate(op: Operation)
    requires MethodOf(op) == DELETE
    ensures 1 < |Template(PathOf(op))| && Template(PathOf(op))[1] == Initial(op)
  {
  }

  /** Operations whose URLs coincide address the same resource letter. */
  lemma SameUrlSameInitial(a: Operation, b: Operation)
    requires Url(PathOf(a)) == Url(PathOf(b))
    ensures Initial(a) == Initial(b)
  {
    InitialOfTemplate(a);
    InitialOfTemplate(b);
    UrlAgreesWithTemplate(PathOf(a), 1);
    UrlAgreesWithTemplate(PathOf(b), 1);
  }

  // The routes that share a method and a resource letter still differ in
  // their templates, at the position each lemma names.

  /** `/products/getproductID/` and `/products/getallproduct` differ at position 13. */
  lemma ProductByIdNotAll(x: string)
    ensures Url(PathOf(GetProductById(x))) != Url(PathOf(GetAllProducts))
  {
    DifferAt(PathOf(GetProductById(x)), PathOf(GetAllProducts), 13);
  }

  /** `/products/getproductbycate/` and `/products/getallproduct` differ at position 13. */
  lemma ProductsByCategoryNotAll(x: string)
    ensures Url(PathOf(GetProductsByCategory(x))) != Url(PathOf(GetAllProducts))
  {
    DifferAt(PathOf(GetProductsByCategory(x)), PathOf(GetAllProducts), 13);
  }

  /** `/products/getproductID/` and `/products/getproductbycate/` differ at position 20. */
  lemma ProductByIdNotByCategory(x: string, y: string)
    ensures Url(PathOf(GetProductById(x))) != Url(PathOf(GetProductsByCategory(y)))
  {
    DifferAt(PathOf(GetProductById(x)), PathOf(GetProductsByCategory(y)), 20);
  }

  /** `/feedbacks/getfeedback/` and `/feedbacks/getfeedbacks` differ at position 22. */
  lemma ProductFeedbacksNotAll(x: string)
    ensures Url(PathOf(GetProductFeedbacks(x))) != Url(PathOf(GetAllFeedbacks))
  {
    DifferAt(PathOf(GetProductFeedbacks(x)), PathOf(GetAllFeedbacks), 22);
  }

  /** `/categories/updateCate/` and `/carts/status/` differ at position 3. */
  lemma CategoryUpdateNotOrderUpdate(x: string, y: string)
    ensures Url(PathOf(UpdateCategory(x))) != Url(PathOf(UpdateOrderStatus(y)))
  {
    DifferAt(PathOf(UpdateCategory(x)), PathOf(UpdateOrderStatus(y)), 3);
  }

  /** Two URLs on the same template carry the same id. */
  lemma SameTemplateSameId(a: Operation, b: Operation)
    requires PathOf(a).WithId? && PathOf(b).WithId?
    requires MethodOf(a) == MethodOf(b) && PathOf(a).prefix == PathOf(b).prefix
    requires Url(PathOf(a)) == Url(PathOf(b))
    ensures a == b
  {
    var pa, pb := PathOf(a), PathOf(b);
    assert pa.id == Url(pa)[|pa.prefix|..] == pb.id;
    RouteInjective(a, b);
  }

  /**
   * The route table is unambiguous on the wire: two operations with the same
   * method never send the same URL text, even once an id is appended.
   */
  lemma UrlInjective(a: Operation, b: Operation)
    requires Route(a).verb == Route(b).verb
    requires Url(Route(a).path) == Url(Route(b).path)
    ensures a == b
  {
    SameUrlSameInitial(a, b);
    if PathOf(a).Fixed? && PathOf(b).Fixed? {
      RouteInjective(a, b);
    } else if PathOf(b).Fixed? {
      UrlInjectiveFrom(a, b);
    } else {
      UrlInjectiveFrom(b, a);
    }
  }

  /** `UrlInjective` when the first operation appends an id. */
  lemma UrlInjectiveFrom(a: Operation, b: Operation)
    requires MethodOf(a) == MethodOf(b) && PathOf(a).WithId? && Initial(a) == Initial(b)
    requires Url(PathOf(a)) == Url(PathOf(b))
    ensures a == b
  {
    match MethodOf(a)
    case GET => UrlInjectiveRead(a, b);
    case PUT => UrlInjectiveUpdate(a, b);
    case _ => SameTemplateSameId(a, b);
  }

  /** Among the reads, only the product reads and the two feedback reads share a resource letter. */
  lemma UrlInjectiveRead(a: Operation, b: Operation)
    requires MethodOf(a) == GET && MethodOf(b) == GET && PathOf(a).WithId? && Initial(a) == Initial(b)
    requires Url(PathOf(a)) == Url(PathOf(b))
    ensures a == b
  {
    match a
    case GetProductById(x) =>
      if b.GetProductById? { SameTemplateSameId(a, b); }
      else if b.GetProductsByCategory? { ProductByIdNotByCategory(x, b.categoryId); }
      else { ProductByIdNotAll(x); }
    case GetProductsByCategory(x) =>
      if b.GetProductsByCategory? { SameTemplateSameId(a, b); }
      else if b.GetProductById? { ProductByIdNotByCategory(b.productId, x); }
      else { ProductsByCategoryNotAll(x); }
    case GetProductFeedbacks(x) =>
      if b.GetProductFeedbacks? { SameTemplateSameId(a, b); } else { ProductFeedbacksNotAll(x); }
  }

  /** Among the updates, only the category and order updates share a resource letter. */
  lemma UrlInjectiveUpdate(a: Operation, b: Operation)
    requires MethodOf(a) == PUT && MethodOf(b) == PUT && Initial(a) == Initial(b)
    requires Url(PathOf(a)) == Url(PathOf(b))
    ensures a == b
  {
    match a
    case UpdateCategory(x) =>
      if b.UpdateCategory? { SameTemplateSameId(a, b); } else { CategoryUpdateNotOrderUpdate(x, b.orderId); }
    case UpdateOrderStatus(y) =>
      if b.UpdateOrderStatus? { SameTemplateSameId(a, b); } else { CategoryUpdateNotOrderUpdate(b.categoryId, y); }
    case _ =>
      SameTemplateSameId(a, b);
  }

  /**
   * Each operation uses one fixed method: GET for reads, POST for sign-in and
   * creation, PUT for updates, DELETE for removals; and exactly the reads
   * unwrap their response.
   */
  lemma MethodByKind(op: Operation)
    ensures Route(op).verb == GET <==> KindOf(op) == Read
    ensures Route(op).verb == POST <==> KindOf(op) == SignIn || KindOf(op) == Create
    ensures Route(op).verb == PUT <==> KindOf(op) == Update
    ensures Route(op).verb == DELETE <==> KindOf(op) == Remove
    ensures Unwraps(op) <==> Route(op).verb == GET
  {
  }

  /** An identifier appears in the path exactly when the operation takes one, and then verbatim at the end. */
  lemma IdAppendedVerbatim(op: Operation)
    ensures Route(op).path.WithId? <==> ResourceId(op).Some?
    ensures ResourceId(op).Some? ==>
      Url(Route(op).path) == Route(op).path.prefix + ResourceId(op).value
  {
  }

  /** `deleteVoucher` lies outside the `/vouchers` prefix that every other voucher call uses. */
  lemma DeleteVoucherOutsideVoucherPrefix(id: string)
    ensures !StartsWith(Url(Route(DeleteVoucher(id)).path), "/vouchers")
  {
    assert Url(Route(DeleteVoucher(id)).path)[1] == 'd';
  }

  /** Listing, creating and updating vouchers all go under `/vouchers`. */
  lemma VoucherCallsUnderVoucherPrefix(id: string)
    ensures StartsWith(Url(Route(GetAllVouchers).path), "/vouchers")
    ensures StartsWith(Url(Route(CreateVoucher).path), "/vouchers")
    ensures StartsWith(Url(Route(UpdateVoucher(id)).path), "/vouchers")
  {
    assert Url(Route(UpdateVoucher(id)).path)[..9] == "/vouchers";
    assert Url(Route(CreateVoucher).path)[..9] == "/vouchers";
  }

  predicate StartsWith(s: string, prefix: string) {
    |prefix| <= |s| && s[..|prefix|] == prefix
  }

  /**
   * The inner `data` field of a response body, as `||` sees it: missing
   * (`undefined`), falsy (`null`, `false`, `0`, `""`), or a truthy payload.
   * An array is truthy even when it is empty.
   */
  datatype Inner<+P> = Missing | Falsy | Truthy(payload: P)

  /** The response body: not an object (so `?.data` is `undefined`), or an envelope with its `data` field. */
  datatype Body<+P> = NotAnObject | Envelope(data: Inner<P>)

  /** What `response.data?.data || []` yields: the payload, or a fresh empty list. */
  datatype Unwrapped<+P> = Payload(payload: P) | EmptyList

  /**
   * `handleApiResponse`: a fulfilled call yields the envelope's inner `data`
   * when it is present and truthy and the empty list otherwise; a rejected
   * call, whatever its cause, rejects with an `Error` carrying `FetchFailure`.
   */
  function HandleApiResponse<P>(call: Settled<Body<P>>): (r: Settled<Unwrapped<P>>)
    ensures r.Rejected? <==> call.Rejected?
    ensures r.Rejected? ==> r.reason == ErrorObject(FetchFailure)
    ensures r.Fulfilled? ==>
      (r.value.Payload? <==> call.value.Envelope? && call.value.data.Truthy?)
    ensures r.Fulfilled? && r.value.Payload? ==> r.value.payload == call.value.data.payload
  {
    match call
    case Rejected(_) => Rejected(ErrorObject(FetchFailure))
    case Fulfilled(body) =>
      if body.Envelope? && body.data.Truthy? then Fulfilled(Payload(body.data.payload))
      else Fulfilled(EmptyList)
  }

  /** A list read (`getAllProducts` and the other six): the unwrapped list, `[]` standing in for a missing one. */
  function ReadList<T>(call: Settled<Body<seq<T>>>): (r: Settled<seq<T>>)
    ensures r.Rejected? <==> call.Rejected?
    ensures r.Rejected? ==> r.reason == ErrorObject(FetchFailure)
    ensures call.Fulfilled? ==>
      r.value == (if call.value.Envelope? && call.value.data.Truthy? then call.value.data.payload else [])
  {
    match HandleApiResponse(call)
    case Rejected(e) => Rejected(e)
    case Fulfilled(Payload(xs)) => Fulfilled(xs)
    case Fulfilled(EmptyList) => Fulfilled([])
  }

  /** What an exported call returns: the unwrapped data for reads, the raw response for every other call. */
  datatype Reply<+P> = Data(data: Unwrapped<P>) | RawResponse(body: Body<P>)

  function Invoke<P>(op: Operation, response: Settled<Body<P>>): (r: Settled<Reply<P>>)
    ensures r.Rejected? <==> response.Rejected?
  {
    if Unwraps(op) then
      match HandleApiResponse(response)
      case Rejected(e) => Rejected(e)
      case Fulfilled(u) => Fulfilled(Data(u))
    else
      match response
      case Rejected(e) => Rejected(e)
      case Fulfilled(b) => Fulfilled(RawResponse(b))
  }

  /**
   * Reads normalise: they succeed or fail exactly as the request did, a
   * failure always carries the fixed message, and a present truthy payload
   * comes back unchanged while an absent or falsy one comes back as the
   * empty list, never as an error.
   */
  lemma ReadsNormalise<P>(op: Operation, response: Settled<Body<P>>)
    requires KindOf(op) == Read
    ensures Invoke(op, response).Rejected? <==> response.Rejected?
    ensures Invoke(op, response).Rejected? ==> Invoke(op, response).reason == ErrorObject(FetchFailure)
    ensures forall p :: response == Fulfilled(Envelope(Truthy(p))) ==> Invoke(op, response) == Fulfilled(Data(Payload(p)))
    ensures response == Fulfilled(Envelope(Missing)) ==> Invoke(op, response) == Fulfilled(Data(EmptyList))
    ensures response == Fulfilled(Envelope(Falsy)) ==> Invoke(op, response) == Fulfilled(Data(EmptyList))
  {
    MethodByKind(op);
  }

  /** Every other call hands back the raw response and lets a failure through with its own reason. */
  lemma WritesPassThrough<P>(op: Operation, response: Settled<Body<P>>)
    requires KindOf(op) != Read
    ensures response.Rejected? ==> Invoke(op, response) == Rejected(response.reason)
    ensures response.Fulfilled? ==> Invoke(op, response) == Fulfilled(RawResponse(response.value))
  {
    MethodByKind(op);
  }
}
