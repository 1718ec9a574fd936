/** compute_total_cost: index the price catalogue by title, then walk the sales
    in order, adding price * quantity for every sale whose product is in the
    index and warning once about every sale whose product is not. */
module ComputeSales {
  import opened SalesRecords

  type Prices = map<Value, Value>

  /** An entry the dictionary comprehension can index: it has both keys. */
  predicate Indexable(e: Entry) {
    e.title.Some? && e.price.Some?
  }

  /** The title-to-price dictionary built from the catalogue, or the KeyError
      raised by the first entry lacking `title` or `price`. Entries are
      indexed in order, so a later entry with the same title overwrites an
      earlier one. */
  function BuildPrices(catalogue: seq<Entry>): (r: Result<Prices, Error>)
    ensures r.Success? <==> forall i :: 0 <= i < |catalogue| ==> Indexable(catalogue[i])
    ensures r.Failure? ==>
      && r.error.KeyError?
      && r.error.entry < |catalogue|
      && (forall i :: 0 <= i < r.error.entry ==> Indexable(catalogue[i]))
      && !Indexable(catalogue[r.error.entry])
      && r.error.key == (if catalogue[r.error.entry].title.None? then "title" else "price")
    decreases |catalogue|
  {
    if |catalogue| == 0 then Success(map[])
    else
      var n := |catalogue| - 1;
      var init := BuildPrices(catalogue[..n]);
      var last := catalogue[n];
      if init.Failure? then init
      else if last.title.None? then Failure(KeyError(n, "title"))
      else if last.price.None? then Failure(KeyError(n, "price"))
      else Success(init.value[last.title.value := last.price.value])
  }

  /** What one sale does to the running total. */
  datatype Step =
    | Charge(amount: real)   // the product is known: add price * quantity
    | NotFound(product: Value)  // the product is unknown: warn and add nothing
    | Invalid                // the product is known but price * quantity raises

  /** The step a sale takes: `sale.get('Product')` is looked up in the index;
      a hit multiplies the price by `sale.get('Quantity')`, which succeeds only
      when both are numbers. */
  function Classify(prices: Prices, sale: Sale): (r: Step)
    ensures r.NotFound? <==> Get(sale.product) !in prices
    ensures r.NotFound? ==> r.product == Get(sale.product)
    ensures r.Charge? <==> Get(sale.product) in prices && prices[Get(sale.product)].Num? && Get(sale.quantity).Num?
    ensures r.Charge? ==> r.amount == prices[Get(sale.product)].n * Get(sale.quantity).n
    ensures sale.quantity.None? && Get(sale.product) in prices ==> r.Invalid?
  {
    var product := Get(sale.product);
    if product !in prices then NotFound(product)
    else
      var price, quantity := prices[product], Get(sale.quantity);
      if price.Num? && quantity.Num? then Charge(price.n * quantity.n) else Invalid
  }

  /** The total after the sales loop has run over `sales`, or the TypeError
      raised by the first sale that cannot be charged. */
  function Accumulate(prices: Prices, sales: seq<Sale>): (r: Result<real, Error>)
    ensures r.Success? <==> forall i :: 0 <= i < |sales| ==> !Classify(prices, sales[i]).Invalid?
    ensures r.Failure? ==>
      && r.error.TypeError?
      && r.error.sale < |sales|
      && Classify(prices, sales[r.error.sale]).Invalid?
      && forall i :: 0 <= i < r.error.sale ==> !Classify(prices, sales[i]).Invalid?
    decreases |sales|
  {
    if |sales| == 0 then Success(0.0)
    else
      var n := |sales| - 1;
      var init := Accumulate(prices, sales[..n]);
      if init.Failure? then init
      else
        match Classify(prices, sales[n])
        case Charge(a) => Success(init.value + a)
        case NotFound(_) => init
        case Invalid => Failure(TypeError(n))
  }

  /** The products named by the "not found" warnings the loop prints while it
      runs over `sales`, in the order it prints them. */
  function Warnings(prices: Prices, sales: seq<Sale>): (w: seq<Value>)
    ensures |w| <= |sales|
    ensures forall k :: 0 <= k < |w| ==> w[k] !in prices
    decreases |sales|
  {
    if |sales| == 0 then []
    else
      var n := |sales| - 1;
      var product := Get(sales[n].product);
      if product in prices then Warnings(prices, sales[..n])
      else Warnings(prices, sales[..n]) + [product]
  }

  /** The value compute_total_cost returns, or the exception it raises. */
  function TotalCost(catalogue: seq<Entry>, sales: seq<Sale>): (r: Result<real, Error>)
    ensures (r.Failure? && r.error.KeyError?) <==> exists i :: 0 <= i < |catalogue| && !Indexable(catalogue[i])
    ensures BuildPrices(catalogue).Success? ==>
      (r.Success? <==> forall j :: 0 <= j < |sales| ==> !Classify(BuildPrices(catalogue).value, sales[j]).Invalid?)
    ensures r.Failure? && r.error.TypeError? ==> r.error.sale < |sales|
  {
    match BuildPrices(catalogue)
    case Failure(e) => Failure(e)
    case Success(prices) => Accumulate(prices, sales)
  }

  /** The warnings compute_total_cost prints before it returns or raises: none
      when indexing the catalogue raises, and otherwise one per unknown product
      among the sales the loop reaches. */
  function PrintedWarnings(catalogue: seq<Entry>, sales: seq<Sale>): (w: seq<Value>)
    ensures BuildPrices(catalogue).Failure? ==> w == []
    ensures BuildPrices(catalogue).Success? ==> w <= Warnings(BuildPrices(catalogue).value, sales)
    ensures TotalCost(catalogue, sales).Success? ==> w == Warnings(BuildPrices(catalogue).value, sales)
    ensures TotalCost(catalogue, sales).Failure? && TotalCost(catalogue, sales).error.TypeError? ==>
      w == Warnings(BuildPrices(catalogue).value, sales[..TotalCost(catalogue, sales).error.sale])
    ensures forall k :: 0 <= k < |w| ==> w[k] in PrefixProducts(sales)
  {
    match BuildPrices(catalogue)
    case Failure(_) => []
    case Success(prices) =>
      match Accumulate(prices, sales)
      case Success(_) => WarningsNameSales(prices, sales); Warnings(prices, sales)
      case Failure(e) =>
        WarningsOfPrefix(prices, sales, e.sale);
        WarningsNameSales(prices, sales[..e.sale]);
        Warnings(prices, sales[..e.sale])
  }

  /** The values looked up by the sales, as `sale.get('Product')` gives them. */
  function PrefixProducts(sales: seq<Sale>): set<Value> {
    set i | 0 <= i < |sales| :: Get(sales[i].product)
  }

  /** Every warning names the product of one of the sales. */
  lemma {:induction false} WarningsNameSales(prices: Prices, sales: seq<Sale>)
    ensures forall k :: 0 <= k < |Warnings(prices, sales)| ==> Warnings(prices, sales)[k] in PrefixProducts(sales)
    decreases |sales|
  {
    if |sales| > 0 {
      var n := |sales| - 1;
      WarningsNameSales(prices, sales[..n]);
      forall i | 0 <= i < n ensures sales[..n][i] == sales[i] { }
      assert PrefixProducts(sales[..n]) <= PrefixProducts(sales);
      assert Get(sales[n].product) in PrefixProducts(sales);
    }
  }

  /** The warnings printed over a prefix of the sales begin the warnings of the
      whole run: the loop only ever appends. */
  lemma {:induction false} WarningsOfPrefix(prices: Prices, sales: seq<Sale>, k: nat)
    requires k <= |sales|
    ensures Warnings(prices, sales[..k]) <= Warnings(prices, sales)
    decreases |sales|
  {
    if k < |sales| {
      var n := |sales| - 1;
      assert sales[..n][..k] == sales[..k];
      WarningsOfPrefix(prices, sales[..n], k);
    } else {
      assert sales[..k] == sales;
    }
  }

  /** Once the loop has raised on a prefix of the sales, the whole run raises
      the same exception: the later sales are never reached. */
  lemma {:induction false} AccumulateStopsAtFailure(prices: Prices, sales: seq<Sale>, k: nat)
    requires k <= |sales|
    requires Accumulate(prices, sales[..k]).Failure?
    ensures Accumulate(prices, sales) == Accumulate(prices, sales[..k])
    decreases |sales|
  {
    if k < |sales| {
      var n := |sales| - 1;
      assert sales[..n][..k] == sales[..k];
      AccumulateStopsAtFailure(prices, sales[..n], k);
    } else {
      assert sales[..k] == sales;
    }
  }

  /** The sales loop, with its running total and the warnings it prints. The
      catalogue and the sales are values, so neither can be changed. */
  method ComputeTotalCost(catalogue: seq<Entry>, sales: seq<Sale>) returns (result: Result<real, Error>, warnings: seq<Value>)
    ensures result == TotalCost(catalogue, sales)
    ensures warnings == PrintedWarnings(catalogue, sales)
  {
    warnings := [];
    var index := BuildPrices(catalogue);
    if index.Failure? {
      return Failure(index.error), warnings;
    }
    var prices := index.value;
    var total := 0.0;
    var i := 0;
    while i < |sales|
      invariant 0 <= i <= |sales|
      invariant Accumulate(prices, sales[..i]) == Success(total)
      invariant warnings == Warnings(prices, sales[..i])
    {
      var sale := sales[i];
      var product := Get(sale.product);
      var quantity := Get(sale.quantity);
      assert sales[..i + 1][..i] == sales[..i];
      if product in prices {
        var price := prices[product];
        if price.Num? && quantity.Num? {
          assert Classify(prices, sale) == Charge(price.n * quantity.n);
          total := total + price.n * quantity.n;
        } else {
          assert Classify(prices, sale) == Invalid;
          AccumulateStopsAtFailure(prices, sales, i + 1);
          return Failure(TypeError(i)), warnings;
        }
      } else {
        warnings := warnings + [product];
      }
      i := i + 1;
    }
    assert sales[..i] == sales;
    result := Success(total);
  }
}
