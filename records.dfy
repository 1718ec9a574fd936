/** The loosely typed records that compute_total_cost receives after the two
    JSON documents have been parsed: a price catalogue and a sales record, each
    an ordered list of objects whose fields may be missing. */
module SalesRecords {

  datatype Option<+T> = None | Some(value: T)

  datatype Result<+T, +E> = Success(value: T) | Failure(error: E)

  /** A JSON scalar as Python holds it: `null` is Python's None, every JSON
      number (integer or not) is a number, and a string is a string. */
  datatype Value = Null | Num(n: real) | Str(s: string)

  /** One catalogue object. A field is None when the key is absent from the
      object, and Some(Null) when it is present with the value `null`. */
  datatype Entry = Entry(title: Option<Value>, price: Option<Value>)

  /** One sales object, with its `Product` and `Quantity` fields. */
  datatype Sale = Sale(product: Option<Value>, quantity: Option<Value>)

  /** The exceptions of compute_total_cost that the model keeps (the overflow
      of an integer too large for a float is not among them). `entry` and
      `sale` are the position of the record that raised, counted from 0. */
  datatype Error =
    | KeyError(entry: nat, key: string)  // item["title"] or item["price"] on an object without that key
    | TypeError(sale: nat)               // price * quantity, or adding it to the total, on a non-number

  /** Python's `dict.get(key)`: the field's value, or None when it is absent. */
  function Get(field: Option<Value>): Value
  {
    match field
    case None => Null
    case Some(v) => v
  }
}
