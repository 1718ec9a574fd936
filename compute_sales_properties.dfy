/** What compute_total_cost promises, stated over the functions that specify
    it: the catalogue index, the running total, the warnings and the two
    exceptions. */
module ComputeSalesProperties {
  import opened SalesRecords
  import opened ComputeSales

  // ---------------------------------------------------------------------------
  // The catalogue index

  /** For a title that no later entry repeats, the index holds that entry's
      price: the last entry with a given title wins. */
  lemma {:induction false} LastEntryWins(catalogue: seq<Entry>, i: nat)
    requires BuildPrices(catalogue).Success?
    requires i < |catalogue|
    requires forall j :: i < j < |catalogue| ==> catalogue[j].title != catalogue[i].title
    ensures catalogue[i].title.Some? && catalogue[i].price.Some?
    ensures catalogue[i].title.value in BuildPrices(catalogue).value
    ensures BuildPrices(catalogue).value[catalogue[i].title.value] == catalogue[i].price.value
    decreases |catalogue|
  {
    var n := |catalogue| - 1;
    assert Indexable(catalogue[i]);
    if i < n {
      assert Indexable(catalogue[n]);
      assert BuildPrices(catalogue[..n]).Success?;
      assert catalogue[..n][i] == catalogue[i];
      LastEntryWins(catalogue[..n], i);
    }
  }

  /** Every catalogue title is a key of the index, and there are no other keys. */
  lemma {:induction false} IndexKeysAreTitles(catalogue: seq<Entry>, k: Value)
    requires BuildPrices(catalogue).Success?
    ensures k in BuildPrices(catalogue).value <==> exists i :: 0 <= i < |catalogue| && catalogue[i].title == Some(k)
    decreases |catalogue|
  {
    if |catalogue| > 0 {
      var n := |catalogue| - 1;
      assert Indexable(catalogue[n]);
      IndexKeysAreTitles(catalogue[..n], k);
      if exists i :: 0 <= i < |catalogue| && catalogue[i].title == Some(k) {
        var i :| 0 <= i < |catalogue| && catalogue[i].title == Some(k);
        if i < n {
          assert catalogue[..n][i] == catalogue[i];
        }
      }
    }
  }

  /** A catalogue entry without `title` or `price` makes the whole computation
      raise KeyError before any sale is looked at, so nothing is printed. */
  lemma BadEntryFailsBeforeSales(catalogue: seq<Entry>, sales: seq<Sale>, i: nat)
    requires i < |catalogue| && !Indexable(catalogue[i])
    ensures TotalCost(catalogue, sales).Failure?
    ensures TotalCost(catalogue, sales).error.KeyError?
    ensures TotalCost(catalogue, sales).error.entry <= i
    ensures PrintedWarnings(catalogue, sales) == []
  {
  }

  // ---------------------------------------------------------------------------
  // One sale at a time

  /** An empty sales record gives a total of 0 and prints nothing, once the
      catalogue could be indexed. */
  lemma EmptySales(catalogue: seq<Entry>)
    requires BuildPrices(catalogue).Success?
    ensures TotalCost(catalogue, []) == Success(0.0)
    ensures PrintedWarnings(catalogue, []) == []
  {
  }

  /** A sale of a known product with a numeric price and quantity adds exactly
      price * quantity to the total and prints nothing. */
  lemma {:induction false} KnownSaleAddsPriceTimesQuantity(prices: Prices, sales: seq<Sale>, sale: Sale, price: real, quantity: real)
    requires Accumulate(prices, sales).Success?
    requires Get(sale.product) in prices && prices[Get(sale.product)] == Num(price)
    requires Get(sale.quantity) == Num(quantity)
    ensures Accumulate(prices, sales + [sale]) == Success(Accumulate(prices, sales).value + price * quantity)
    ensures Warnings(prices, sales + [sale]) == Warnings(prices, sales)
  {
    assert Classify(prices, sale) == Charge(price * quantity);
    assert (sales + [sale])[..|sales|] == sales;
  }

  /** A sale of an unknown product adds nothing, prints one warning naming that
      product, and the loop carries on with the next sale. */
  lemma {:induction false} UnknownSaleWarnsOnce(prices: Prices, sales: seq<Sale>, sale: Sale)
    requires Get(sale.product) !in prices
    ensures Accumulate(prices, sales + [sale]) == Accumulate(prices, sales)
    ensures Warnings(prices, sales + [sale]) == Warnings(prices, sales) + [Get(sale.product)]
  {
    assert (sales + [sale])[..|sales|] == sales;
  }

  /** A sale with no `Product` field is looked up as None: it is reported as
      not found unless some catalogue title is `null`. */
  lemma MissingProductIsNone(prices: Prices, sale: Sale)
    requires sale.product.None?
    ensures Null !in prices ==> Classify(prices, sale) == NotFound(Null)
    ensures Null in prices ==> !Classify(prices, sale).NotFound?
  {
  }

  /** A sale of a known product with no `Quantity` field raises TypeError:
      the run fails at that sale or at an earlier one, it does not skip it. */
  lemma MissingQuantityFails(catalogue: seq<Entry>, sales: seq<Sale>, i: nat)
    requires BuildPrices(catalogue).Success?
    requires i < |sales|
    requires Get(sales[i].product) in BuildPrices(catalogue).value
    requires sales[i].quantity.None?
    ensures TotalCost(catalogue, sales).Failure?
    ensures TotalCost(catalogue, sales).error == TypeError(TotalCost(catalogue, sales).error.sale)
    ensures TotalCost(catalogue, sales).error.sale <= i
  {
    var prices := BuildPrices(catalogue).value;
    assert Classify(prices, sales[i]).Invalid?;
  }

  // ---------------------------------------------------------------------------
  // The total is a sum over the known sales

  /** What a sale contributes to the total: price * quantity when the product
      is known, nothing otherwise. */
  function Contribution(prices: Prices, sale: Sale): real {
    match Classify(prices, sale)
    case Charge(a) => a
    case _ => 0.0
  }

  /** The sum of the contributions, taken from the front of the sequence. */
  function MatchedCost(prices: Prices, sales: seq<Sale>): real
    decreases |sales|
  {
    if |sales| == 0 then 0.0 else Contribution(prices, sales[0]) + MatchedCost(prices, sales[1..])
  }

  lemma {:induction false} MatchedCostAppend(prices: Prices, a: seq<Sale>, b: seq<Sale>)
    ensures MatchedCost(prices, a + b) == MatchedCost(prices, a) + MatchedCost(prices, b)
    decreases |a|
  {
    if |a| > 0 {
      assert (a + b)[0] == a[0];
      assert (a + b)[1..] == a[1..] + b;
      MatchedCostAppend(prices, a[1..], b);
    } else {
      assert a + b == b;
    }
  }

  /** When the loop finishes, the total is the sum of price * quantity over the
      sales whose product is known. */
  lemma {:induction false} TotalIsMatchedCost(prices: Prices, sales: seq<Sale>)
    requires Accumulate(prices, sales).Success?
    ensures Accumulate(prices, sales).value == MatchedCost(prices, sales)
    decreases |sales|
  {
    if |sales| > 0 {
      var n := |sales| - 1;
      assert sales == sales[..n] + [sales[n]];
      TotalIsMatchedCost(prices, sales[..n]);
      MatchedCostAppend(prices, sales[..n], [sales[n]]);
      assert MatchedCost(prices, [sales[n]]) == Contribution(prices, sales[n]);
    }
  }

  /** The value compute_total_cost returns is the sum of price * quantity over
      the sales whose product is in the catalogue index. */
  lemma ReturnedTotalIsMatchedCost(catalogue: seq<Entry>, sales: seq<Sale>)
    requires TotalCost(catalogue, sales).Success?
    ensures BuildPrices(catalogue).Success?
    ensures TotalCost(catalogue, sales).value == MatchedCost(BuildPrices(catalogue).value, sales)
  {
    TotalIsMatchedCost(BuildPrices(catalogue).value, sales);
  }

  /** Taking one sale out of the sequence takes its contribution out of the sum. */
  lemma MatchedCostRemove(prices: Prices, t: seq<Sale>, j: nat)
    requires j < |t|
    ensures MatchedCost(prices, t) == Contribution(prices, t[j]) + MatchedCost(prices, t[..j] + t[j + 1..])
  {
    assert t == t[..j] + [t[j]] + t[j + 1..];
    MatchedCostAppend(prices, t[..j] + [t[j]], t[j + 1..]);
    MatchedCostAppend(prices, t[..j], [t[j]]);
    MatchedCostAppend(prices, t[..j], t[j + 1..]);
    assert MatchedCost(prices, [t[j]]) == Contribution(prices, t[j]);
  }

  lemma {:induction false} MatchedCostPermutation(prices: Prices, s: seq<Sale>, t: seq<Sale>)
    requires multiset(s) == multiset(t)
    ensures MatchedCost(prices, s) == MatchedCost(prices, t)
    decreases |s|
  {
    if |s| > 0 {
      var x := s[0];
      assert x in multiset(t);
      var j :| 0 <= j < |t| && t[j] == x;
      var rest := t[..j] + t[j + 1..];
      assert t == t[..j] + [x] + t[j + 1..];
      assert multiset(rest) == multiset(t) - multiset{x};
      assert s == [x] + s[1..];
      assert multiset(s[1..]) == multiset(s) - multiset{x};
      MatchedCostPermutation(prices, s[1..], rest);
      MatchedCostRemove(prices, t, j);
    }
  }

  /** Reordering the sales changes neither whether the run raises nor the
      total it returns. */
  lemma TotalIgnoresOrder(prices: Prices, s: seq<Sale>, t: seq<Sale>)
    requires multiset(s) == multiset(t)
    ensures Accumulate(prices, s).Success? <==> Accumulate(prices, t).Success?
    ensures Accumulate(prices, s).Success? ==> Accumulate(prices, s).value == Accumulate(prices, t).value
  {
    forall i | 0 <= i < |s| ensures exists j :: 0 <= j < |t| && t[j] == s[i] {
      assert s[i] in multiset(t);
    }
    forall j | 0 <= j < |t| ensures exists i :: 0 <= i < |s| && s[i] == t[j] {
      assert t[j] in multiset(s);
    }
    if Accumulate(prices, s).Success? {
      TotalIsMatchedCost(prices, s);
      TotalIsMatchedCost(prices, t);
      MatchedCostPermutation(prices, s, t);
    }
  }

  // ---------------------------------------------------------------------------
  // The warnings

  /** The products of the unknown sales, filtered from the front. */
  function UnknownProducts(prices: Prices, sales: seq<Sale>): seq<Value>
    decreases |sales|
  {
    if |sales| == 0 then []
    else if Get(sales[0].product) in prices then UnknownProducts(prices, sales[1..])
    else [Get(sales[0].product)] + UnknownProducts(prices, sales[1..])
  }

  lemma {:induction false} UnknownProductsAppend(prices: Prices, a: seq<Sale>, b: seq<Sale>)
    ensures UnknownProducts(prices, a + b) == UnknownProducts(prices, a) + UnknownProducts(prices, b)
    decreases |a|
  {
    if |a| > 0 {
      assert (a + b)[0] == a[0];
      assert (a + b)[1..] == a[1..] + b;
      UnknownProductsAppend(prices, a[1..], b);
    } else {
      assert a + b == b;
    }
  }

  /** The warnings are printed in the input order of the unknown sales, one
      for each of them. */
  lemma {:induction false} WarningsFollowInputOrder(prices: Prices, sales: seq<Sale>)
    ensures Warnings(prices, sales) == UnknownProducts(prices, sales)
    decreases |sales|
  {
    if |sales| > 0 {
      var n := |sales| - 1;
      assert sales == sales[..n] + [sales[n]];
      WarningsFollowInputOrder(prices, sales[..n]);
      UnknownProductsAppend(prices, sales[..n], [sales[n]]);
    }
  }

  /** The positions of the sales whose product is unknown. */
  function UnknownPositions(prices: Prices, sales: seq<Sale>): set<nat> {
    set i: nat | i < |sales| && Get(sales[i].product) !in prices
  }

  /** There are exactly as many warnings as sales whose product is unknown. */
  lemma {:induction false} WarningCount(prices: Prices, sales: seq<Sale>)
    ensures |Warnings(prices, sales)| == |UnknownPositions(prices, sales)|
    decreases |sales|
  {
    if |sales| > 0 {
      var n := |sales| - 1;
      WarningCount(prices, sales[..n]);
      var before := UnknownPositions(prices, sales[..n]);
      if Get(sales[n].product) in prices {
        assert UnknownPositions(prices, sales) == before;
      } else {
        assert UnknownPositions(prices, sales) == before + {n};
        assert n !in before;
      }
    } else {
      assert UnknownPositions(prices, sales) == {};
    }
  }

  // ---------------------------------------------------------------------------
  // A worked run

  /** Prices A = 10.0 and B = 2.5; sales of 3 A and 1 C: the total is 30 and
      the only warning names C. */
  lemma ExampleRun()
    ensures TotalCost([Entry(Some(Str("A")), Some(Num(10.0))), Entry(Some(Str("B")), Some(Num(2.5)))],
                      [Sale(Some(Str("A")), Some(Num(3.0))), Sale(Some(Str("C")), Some(Num(1.0)))])
            == Success(30.0)
    ensures PrintedWarnings([Entry(Some(Str("A")), Some(Num(10.0))), Entry(Some(Str("B")), Some(Num(2.5)))],
                            [Sale(Some(Str("A")), Some(Num(3.0))), Sale(Some(Str("C")), Some(Num(1.0)))])
            == [Str("C")]
  {
    var catalogue := [Entry(Some(Str("A")), Some(Num(10.0))), Entry(Some(Str("B")), Some(Num(2.5)))];
    var sales := [Sale(Some(Str("A")), Some(Num(3.0))), Sale(Some(Str("C")), Some(Num(1.0)))];
    assert catalogue[..1] == [catalogue[0]];
    assert sales[..1] == [sales[0]];
    assert catalogue[..1][..0] == [];
    assert BuildPrices(catalogue[..1]) == Success(map[Str("A") := Num(10.0)]);
    var prices := BuildPrices(catalogue).value;
    assert prices == map[Str("A") := Num(10.0), Str("B") := Num(2.5)];
    assert Classify(prices, sales[0]) == Charge(30.0);
    assert Classify(prices, sales[1]) == NotFound(Str("C"));
    assert sales[..1][..0] == [];
    assert Accumulate(prices, sales[..1]) == Success(30.0);
    assert Warnings(prices, sales[..1]) == [];
  }
}
