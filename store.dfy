/** The commands the handlers hand to the document client and the outcomes
    they read back.  The store itself is not modelled: an outcome is an input. */
module Store {
  import opened Optional
  import opened JsValue

  /** A stored record, or a key: attribute name to value. */
  type Item = map<string, Value>

  /** The one table every command addresses. */
  const Table := "Products"

  /** `ReturnValues` of the update command: the whole item after the update. */
  const AllNew := "ALL_NEW"

  /** One command per handler, with exactly the parameters the handler builds. */
  datatype Command =
    | Scan(table: string)
    | Get(table: string, key: Item)
    | Put(table: string, item: Item)
    | Update(table: string, key: Item, updateExpression: string,
             attributeNames: Option<map<string, string>>,
             attributeValues: Option<map<string, Value>>,
             returnValues: string)
    | Delete(table: string, key: Item)

  /** The fields of the client's reply that the handlers read: `Items` of a
      scan, `Item` of a get, `Attributes` of an update; each may be absent. */
  datatype Output = Output(items: Option<seq<Item>>, item: Option<Item>, attributes: Option<Item>)

  /** What `await docClient.send(command)` produced: a thrown error or a reply. */
  datatype Outcome = Failed | Succeeded(output: Output)

  /** The key `{ id }` built from a route parameter. */
  function KeyOf(id: string): (k: Item)
    ensures k.Keys == {"id"} && k["id"] == Str(id)
  {
    map["id" := Str(id)]
  }
}
