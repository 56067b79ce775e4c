/** What the product controller promises across whole requests: which requests
    reach the store, with which command, and which status each one answers. */
module ControllerProperties {
  import opened Optional
  import opened JsValue
  import opened Store
  import opened UpdateExpression
  import opened ProductController

  /** The three handlers keyed by the route parameter answer 400 "ID is
      required" without sending anything when it is missing or empty. */
  lemma MissingIdRejected(h: Handler, req: Request, o: Outcome)
    requires h == GetProduct || h == UpdateProduct || h == DeleteProduct
    requires !IdPresent(req.pathId)
    ensures Handle(h, req, o) == Exchange(None, Response(400, Message(IdRequired)))
  {
  }

  /** A lookup sends one Get by key and answers 200 with the item the store
      found, 404 "Product not found" when it found none, 500 when it failed. */
  lemma GetProductAnswers(req: Request, o: Outcome)
    requires IdPresent(req.pathId)
    ensures Handle(GetProduct, req, o).command == Some(Get(Table, KeyOf(req.pathId.value)))
    ensures o.Succeeded? && o.output.item.Some? ==>
              Handle(GetProduct, req, o).response == Response(200, Product(o.output.item.value))
    ensures o.Succeeded? && o.output.item.None? ==>
              Handle(GetProduct, req, o).response == Response(404, Message(ProductNotFound))
    ensures o.Failed? ==> Handle(GetProduct, req, o).response.status == 500
  {
  }

  /** Creation is refused with 400 and sends nothing exactly when one of the
      three fields is falsy. */
  lemma CreateRejectsFalsyFields(req: Request, o: Outcome)
    ensures Handle(CreateProduct, req, o).command.None? <==>
            !Truthy(req.body.id) || !Truthy(req.body.name) || !Truthy(req.body.price)
    ensures Handle(CreateProduct, req, o).command.None? ==>
            Handle(CreateProduct, req, o).response == Response(400, Message(AllFieldsRequired))
  {
  }

  /** An accepted creation puts exactly `{ id, name, price }` into the table,
      and its 201 answer echoes that same item. */
  lemma CreatePutsAndEchoes(req: Request, o: Outcome)
    requires Handle(CreateProduct, req, o).command.Some?
    ensures Handle(CreateProduct, req, o).command.value.Put?
    ensures Handle(CreateProduct, req, o).command.value.table == Table
    ensures Handle(CreateProduct, req, o).command.value.item.Keys == {"id", "name", "price"}
    ensures Handle(CreateProduct, req, o).command.value.item["id"] == req.body.id
    ensures Handle(CreateProduct, req, o).command.value.item["name"] == req.body.name
    ensures Handle(CreateProduct, req, o).command.value.item["price"] == req.body.price
    ensures o.Succeeded? ==>
              Handle(CreateProduct, req, o).response ==
              Response(201, MessageWithProduct(ProductAdded, Some(Handle(CreateProduct, req, o).command.value.item)))
  {
  }

  /** Update checks the route parameter before the fields, and refuses the
      fields only when both are undefined. */
  lemma UpdateValidation(req: Request, o: Outcome)
    ensures !IdPresent(req.pathId) ==> Handle(UpdateProduct, req, o).response.body == Message(IdRequired)
    ensures IdPresent(req.pathId) && !Supplied(req.body.name) && !Supplied(req.body.price) ==>
              Handle(UpdateProduct, req, o) == Exchange(None, Response(400, Message(OneFieldRequired)))
    ensures Handle(UpdateProduct, req, o).command.Some? <==>
              IdPresent(req.pathId) && (Supplied(req.body.name) || Supplied(req.body.price))
  {
  }

  /** The update command an accepted request sends is well formed: the
      expression is `SET ` and a non-empty list of clauses, the name clause
      exactly when `name` was supplied and then first, the price clause exactly
      when `price` was; the alias map is sent only for `name` and is then
      `{"#name": "name"}`; the value map is always sent and binds `:name` and
      `:price` to the supplied values and nothing else. */
  lemma UpdateCommandWellFormed(req: Request)
    requires UpdateProductStep(req).Send?
    ensures var c := UpdateProductStep(req).command;
            var cs := Clauses(req.body.name, req.body.price);
            && ParseSet(c.updateExpression) == Some(cs)
            && cs != []
            && (NameClause in cs <==> Supplied(req.body.name))
            && (PriceClause in cs <==> Supplied(req.body.price))
            && (Supplied(req.body.name) ==> cs[0] == NameClause)
    ensures var c := UpdateProductStep(req).command;
            c.attributeNames == if Supplied(req.body.name) then Some(map["#name" := "name"]) else None
    ensures var c := UpdateProductStep(req).command;
            && c.attributeValues.Some?
            && c.attributeValues.value.Keys <= {":name", ":price"}
            && (":name" in c.attributeValues.value <==> Supplied(req.body.name))
            && (":price" in c.attributeValues.value <==> Supplied(req.body.price))
            && (Supplied(req.body.name) ==> c.attributeValues.value[":name"] == req.body.name)
            && (Supplied(req.body.price) ==> c.attributeValues.value[":price"] == req.body.price)
  {
    var name, price := req.body.name, req.body.price;
    var values := AttributeValues(name, price);
    assert Supplied(name) ==> ":name" in values;
    assert Supplied(price) ==> ":price" in values;
    if Supplied(name) {
      assert AttributeNames(name) == map["#name" := "name"];
    }
  }

  /** Deletion answers 200 "Product deleted" whenever the store call returns,
      whatever the store's reply says about the item. */
  lemma DeleteIgnoresExistence(req: Request, out1: Output, out2: Output)
    requires IdPresent(req.pathId)
    ensures Handle(DeleteProduct, req, Succeeded(out1)) == Handle(DeleteProduct, req, Succeeded(out2))
    ensures Handle(DeleteProduct, req, Succeeded(out1)) ==
            Exchange(Some(Delete(Table, KeyOf(req.pathId.value))), Response(200, Message(ProductDeleted)))
  {
  }

  /** The command depends on the request alone, every command addresses the
      products table, and a request refused before the store is refused the
      same way whatever the store would have said. */
  lemma CommandDecidedBeforeStore(h: Handler, req: Request, o1: Outcome, o2: Outcome)
    ensures Handle(h, req, o1).command == Handle(h, req, o2).command
    ensures Handle(h, req, o1).command.Some? ==> Handle(h, req, o1).command.value.table == Table
    ensures Handle(h, req, o1).command.None? ==> Handle(h, req, o1) == Handle(h, req, o2)
  {
  }

  /** Update's presence test is weaker than creation's truthiness test: a body
      creation accepts is also accepted by update under a present route
      parameter. */
  lemma CreateAcceptedImpliesUpdateAccepted(req: Request, o: Outcome)
    requires IdPresent(req.pathId)
    requires Handle(CreateProduct, req, o).command.Some?
    ensures Handle(UpdateProduct, req, o).command.Some?
  {
    TruthyVersusSupplied(req.body.name);
  }

  /** A price of 0 or an empty name: creation refuses the request outright,
      while update, under a present route parameter, sends it and binds the
      value as given. */
  lemma FalsyFieldsCreateVersusUpdate(req: Request, o: Outcome)
    requires IdPresent(req.pathId)
    requires req.body.price == Num(0.0) || req.body.name == Str("")
    ensures Handle(CreateProduct, req, o) == Exchange(None, Response(400, Message(AllFieldsRequired)))
    ensures UpdateProductStep(req).Send?
    ensures req.body.price == Num(0.0) ==>
              UpdateProductStep(req).command.attributeValues.value[":price"] == Num(0.0)
    ensures req.body.name == Str("") ==>
              UpdateProductStep(req).command.attributeValues.value[":name"] == Str("")
  {
    UpdateCommandWellFormed(req);
  }
}
