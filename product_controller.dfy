/** The five request handlers of the product controller.  Each handler is split
    where the source awaits the store: a step from the request to either an
    early response or the one command it sends, and a reply from the store's
    outcome to the response.  `Handle` puts the two together. */
module ProductController {
  import opened Optional
  import opened JsValue
  import opened Store
  import opened UpdateExpression

  /** The body fields the handlers destructure; any other field is ignored. */
  datatype RequestBody = RequestBody(id: Value, name: Value, price: Value)

  /** The route parameter `id` and the parsed body. */
  datatype Request = Request(pathId: Option<string>, body: RequestBody)

  /** The JSON body of a response.  The raw error object the source attaches
      to its "Server error" responses is not modelled. */
  datatype ResponseBody =
    | ItemList(items: Option<seq<Item>>)                        // response.Items
    | Product(item: Item)                                       // response.Item
    | Message(message: string)                                  // { message }
    | MessageWithProduct(message: string, product: Option<Item>) // { message, product }
    | Error(error: string)                                      // { error }
    | MessageWithError(message: string)                         // { message, error }

  datatype Response = Response(status: nat, body: ResponseBody)

  /** What a handler does before awaiting the store. */
  datatype Step = Reject(response: Response) | Send(command: Command)

  /** A whole request: the command sent to the store, if any, and the response. */
  datatype Exchange = Exchange(command: Option<Command>, response: Response)

  datatype Handler = GetAllProducts | GetProduct | CreateProduct | UpdateProduct | DeleteProduct

  const IdRequired := "ID is required"
  const ProductNotFound := "Product not found"
  const AllFieldsRequired := "All fields (id, name, price) are required"
  const OneFieldRequired := "At least one field (name or price) must be provided"
  const FetchFailed := "Failed to fetch products"
  const ServerError := "Server error"
  const ProductAdded := "Product added"
  const ProductUpdated := "Product updated"
  const ProductDeleted := "Product deleted"

  /** The 500 response of every handler but the listing. */
  const ServerFailure := Response(500, MessageWithError(ServerError))

  /** The 400 response for a missing route parameter. */
  const MissingId := Response(400, Message(IdRequired))

  // ---------------------------------------------------------------- listing

  /** The listing never refuses: it scans the whole table, with no filter. */
  function GetAllProductsStep(): (s: Step)
    ensures s.Send? && s.command.Scan? && s.command.table == Table
  {
    Send(Scan(Table))
  }

  function GetAllProductsReply(o: Outcome): (r: Response)
    ensures r.status == 500 <==> o.Failed?
    ensures o.Failed? ==> r.body == Error(FetchFailed)
    ensures o.Succeeded? ==> r == Response(200, ItemList(o.output.items))
  {
    match o
    case Failed => Response(500, Error(FetchFailed))
    case Succeeded(out) => Response(200, ItemList(out.items))
  }

  // ------------------------------------------------------------ single item

  function GetProductStep(id: Option<string>): (s: Step)
    ensures s.Reject? <==> !IdPresent(id)
    ensures s.Reject? ==> s.response == MissingId
    ensures s.Send? ==> s.command == Get(Table, KeyOf(id.value))
  {
    if !IdPresent(id) then Reject(MissingId)
    else Send(Get(Table, KeyOf(id.value)))
  }

  /** An item in the reply (an object, hence truthy) answers 200 with that item;
      a reply without one answers 404. */
  function GetProductReply(o: Outcome): (r: Response)
    ensures r.status == 500 <==> o.Failed?
    ensures r.status == 200 <==> o.Succeeded? && o.output.item.Some?
    ensures r.status == 200 ==> r.body == Product(o.output.item.value)
    ensures r.status == 404 <==> o.Succeeded? && o.output.item.None?
    ensures r.status == 404 ==> r.body == Message(ProductNotFound)
    ensures o.Failed? ==> r == ServerFailure
  {
    match o
    case Failed => ServerFailure
    case Succeeded(out) =>
      if out.item.Some? then Response(200, Product(out.item.value))
      else Response(404, Message(ProductNotFound))
  }

  // --------------------------------------------------------------- creation

  /** The item `{ id, name, price }` a creation request puts. */
  function NewProduct(body: RequestBody): (item: Item)
    ensures item.Keys == {"id", "name", "price"}
    ensures item["id"] == body.id && item["name"] == body.name && item["price"] == body.price
  {
    map["id" := body.id, "name" := body.name, "price" := body.price]
  }

  /** Every one of the three fields must be truthy, so a price of 0 and an
      empty name are refused like absent ones. */
  function CreateProductStep(body: RequestBody): (s: Step)
    ensures s.Reject? <==> !Truthy(body.id) || !Truthy(body.name) || !Truthy(body.price)
    ensures s.Reject? ==> s.response == Response(400, Message(AllFieldsRequired))
    ensures s.Send? ==> s.command == Put(Table, NewProduct(body))
  {
    if !Truthy(body.id) || !Truthy(body.name) || !Truthy(body.price) then
      Reject(Response(400, Message(AllFieldsRequired)))
    else
      Send(Put(Table, NewProduct(body)))
  }

  /** The 201 answer echoes the item that was put, not anything the store says. */
  function CreateProductReply(item: Item, o: Outcome): (r: Response)
    ensures r.status == 500 <==> o.Failed?
    ensures o.Failed? ==> r == ServerFailure
    ensures o.Succeeded? ==> r.status == 201 && r.body == MessageWithProduct(ProductAdded, Some(item))
  {
    match o
    case Failed => ServerFailure
    case Succeeded(_) => Response(201, MessageWithProduct(ProductAdded, Some(item)))
  }

  // ----------------------------------------------------------------- update

  /** The update command for route parameter `id` and the supplied fields.  The
      attribute-name map is attached only when it has a key, and so is the
      attribute-value map. */
  function UpdateCommand(id: string, name: Value, price: Value): (c: Command)
    ensures c.Update? && c.table == Table && c.key == KeyOf(id) && c.returnValues == AllNew
    ensures Supplied(name) || Supplied(price) ==>
              ParseSet(c.updateExpression) == Some(Clauses(name, price)) && Clauses(name, price) != []
    ensures c.attributeNames == if Supplied(name) then Some(map["#name" := "name"]) else None
    ensures Supplied(name) || Supplied(price) ==> c.attributeValues == Some(AttributeValues(name, price))
    ensures !Supplied(name) && !Supplied(price) ==> c.attributeValues == None
  {
    var names := AttributeNames(name);
    var values := AttributeValues(name, price);
    assert Supplied(name) ==> names == map["#name" := "name"] && ":name" in values;
    assert Supplied(price) ==> ":price" in values;
    Update(Table, KeyOf(id), Expression(name, price),
           if |names| > 0 then Some(names) else None,
           if |values| > 0 then Some(values) else None,
           AllNew)
  }

  /** The route parameter is checked first; then at least one of `name` and
      `price` must be supplied, where `null`, `""` and 0 count as supplied. */
  function UpdateProductStep(req: Request): (s: Step)
    ensures !IdPresent(req.pathId) ==> s == Reject(MissingId)
    ensures IdPresent(req.pathId) && !Supplied(req.body.name) && !Supplied(req.body.price) ==>
              s == Reject(Response(400, Message(OneFieldRequired)))
    ensures s.Send? <==> IdPresent(req.pathId) && (Supplied(req.body.name) || Supplied(req.body.price))
    ensures s.Send? ==> s.command.Update? && s.command.table == Table
                        && s.command.key == KeyOf(req.pathId.value) && s.command.returnValues == AllNew
  {
    if !IdPresent(req.pathId) then Reject(MissingId)
    else if req.body.name == Undefined && req.body.price == Undefined then
      Reject(Response(400, Message(OneFieldRequired)))
    else
      Send(UpdateCommand(req.pathId.value, req.body.name, req.body.price))
  }

  /** The 200 answer carries the attributes the store reports after the update. */
  function UpdateProductReply(o: Outcome): (r: Response)
    ensures r.status == 500 <==> o.Failed?
    ensures o.Failed? ==> r == ServerFailure
    ensures o.Succeeded? ==> r.status == 200 && r.body == MessageWithProduct(ProductUpdated, o.output.attributes)
  {
    match o
    case Failed => ServerFailure
    case Succeeded(out) => Response(200, MessageWithProduct(ProductUpdated, out.attributes))
  }

  // --------------------------------------------------------------- deletion

  function DeleteProductStep(id: Option<string>): (s: Step)
    ensures s.Reject? <==> !IdPresent(id)
    ensures s.Reject? ==> s.response == MissingId
    ensures s.Send? ==> s.command == Delete(Table, KeyOf(id.value))
  {
    if !IdPresent(id) then Reject(MissingId)
    else Send(Delete(Table, KeyOf(id.value)))
  }

  /** Any successful delete answers 200, whether or not the item existed. */
  function DeleteProductReply(o: Outcome): (r: Response)
    ensures r.status == 500 <==> o.Failed?
    ensures o.Failed? ==> r == ServerFailure
    ensures o.Succeeded? ==> r == Response(200, Message(ProductDeleted))
  {
    match o
    case Failed => ServerFailure
    case Succeeded(_) => Response(200, Message(ProductDeleted))
  }

  // ------------------------------------------------------------- composition

  /** A handler's step followed, if it sent a command, by its reply. */
  function Complete(s: Step, reply: Response): Exchange
  {
    match s
    case Reject(r) => Exchange(None, r)
    case Send(c) => Exchange(Some(c), reply)
  }

  /** One request through handler `h`, the store answering `o` if asked. */
  function Handle(h: Handler, req: Request, o: Outcome): (x: Exchange)
    ensures x.response.status in DocumentedStatuses(h)
    ensures x.command.None? <==> x.response.status == 400
    ensures x.command.Some? ==> (x.response.status == 500 <==> o.Failed?)
  {
    match h
    case GetAllProducts => Complete(GetAllProductsStep(), GetAllProductsReply(o))
    case GetProduct => Complete(GetProductStep(req.pathId), GetProductReply(o))
    case CreateProduct => Complete(CreateProductStep(req.body), CreateProductReply(NewProduct(req.body), o))
    case UpdateProduct => Complete(UpdateProductStep(req), UpdateProductReply(o))
    case DeleteProduct => Complete(DeleteProductStep(req.pathId), DeleteProductReply(o))
  }

  /** The status codes each handler may answer with. */
  function DocumentedStatuses(h: Handler): set<nat>
  {
    match h
    case GetAllProducts => {200, 500}
    case GetProduct => {200, 400, 404, 500}
    case CreateProduct => {201, 400, 500}
    case UpdateProduct => {200, 400, 500}
    case DeleteProduct => {200, 400, 500}
  }
}
