# computeSales: total cost of a sales record

A model of `compute_total_cost` from `computeSales.py`. The function takes two
lists parsed from JSON: a price catalogue and a sales record. It first indexes
the catalogue into a dictionary from `title` to `price`. A later entry with the
same title overwrites an earlier one. It then walks the sales in order. A sale
whose `Product` is in the dictionary adds `price * Quantity` to a running total.
Any other sale prints one "not found" warning and adds nothing. The total is
returned at the end.

Files:

- `records.dfy` (module `SalesRecords`) holds the records as Python sees them after
  `json.load`.
  - A JSON scalar is a `Value`: `Null`, `Num` or `Str`.
  - A catalogue entry or a sale is a pair of optional fields. `None` means the key is
    absent from the object.
  - The two exceptions of the function that the model keeps are an `Error`.
- `compute_sales.dfy` (module `ComputeSales`) holds the specification and the method.
  - The catalogue index is the function `BuildPrices`.
  - The sales loop is specified by `Accumulate` (the running total) and `Warnings`
    (the products named by the printed warnings).
  - `ComputeTotalCost` is the loop itself. It is proved to return exactly
    `TotalCost` and to print exactly `PrintedWarnings`.
- `compute_sales_properties.dfy` (module `ComputeSalesProperties`) holds the
  properties of the computation. It also gives two reference definitions:
  - `MatchedCost`: the sum of `price * quantity` over the known sales, taken from the
    front;
  - `UnknownProducts`: the unknown products, filtered from the front.

Behaviour the model keeps from the code:

- `item["title"]` and `item["price"]` raise `KeyError` on the first entry lacking the key.
  The key is evaluated before the value (Python 3.8 and later), so an entry lacking
  both reports `title`.
  This happens before any sale is looked at.
- `sale.get('Product')` and `sale.get('Quantity')` give `None` when the field is absent.
  So a sale without `Product` is looked up under the key `None`. It matches only an
  entry whose `title` is `null`.
- For a known product, `price * quantity` followed by `total_cost += …` fails whenever
  an operand is not a number; the model reports it as `TypeError`, which is what Python
  raises except for a string times a huge integer (see "Left out"). A string operand either fails at
  once, or gives a string that cannot be added to the float total. `None` fails at once.
  The run stops at the first such sale. With two numeric operands the model always
  adds the product (see "Left out" for the numeric failures it does not keep).
- The warnings already printed before an exception stay printed. `PrintedWarnings`
  records them.

The module docstring (computeSales.py:15-16) says the program continues on invalid
data. The code does not: a missing catalogue key or a missing `Quantity` on a known
product raises. The model follows the code.

## Model

| member | source | states |
|---|---|---|
| `ComputeSales.BuildPrices` | computeSales.py:51 | The index exists exactly when every entry has both `title` and `price`; otherwise the KeyError names the first entry lacking a key, and the key is `title` when that one is missing |
| `ComputeSales.Classify` | computeSales.py:54-59 | A sale is reported not found exactly when its `Product` (None if absent) is not a key, and the warning names that value; it is charged exactly when the product is a key and both the price and the quantity are numbers, and the charge is their product; a known product without `Quantity` raises |
| `ComputeSales.Accumulate` | computeSales.py:53-59 | The loop finishes exactly when no sale of a known product has a non-numeric price or quantity; otherwise the TypeError names the first such sale |
| `ComputeSales.Warnings` | computeSales.py:53-61 | Every warning names a product that is not in the index, and there are at most as many warnings as sales |
| `ComputeSales.TotalCost` | computeSales.py:50-63 | The function raises KeyError exactly when some catalogue entry lacks `title` or `price`; once the catalogue indexes, it returns a total exactly when no sale of a known product has a non-numeric price or quantity |
| `ComputeSales.PrintedWarnings` | computeSales.py:53-61 | Nothing is printed when the catalogue raises; otherwise the printed warnings begin the warnings of the full loop, are all of them when the run returns, are exactly those of the sales before the failing one when a sale raises, and each names the product of one of the sales |
| `ComputeSales.WarningsOfPrefix` | computeSales.py:53-61 | The warnings printed over a prefix of the sales are a prefix of the warnings of the whole loop: the loop only appends |
| `ComputeSales.AccumulateStopsAtFailure` | computeSales.py:53-59 | Once a prefix of the sales has raised, the whole run raises the same exception: later sales are never reached |
| `ComputeSales.ComputeTotalCost` | computeSales.py:36-63 | The loop returns exactly the specified total or exception and prints exactly the specified warnings: none if the catalogue raises, and those of the sales before the failing one if a sale raises |
| `ComputeSalesProperties.IndexKeysAreTitles` | computeSales.py:51 | A value is a key of the index exactly when some catalogue entry has it as its title |
| `ComputeSalesProperties.LastEntryWins` | computeSales.py:51 | For every entry that no later entry repeats the title of, the index maps that title to that entry's price (the last duplicate wins) |
| `ComputeSalesProperties.BadEntryFailsBeforeSales` | computeSales.py:51-53 | A catalogue entry lacking `title` or `price` makes the whole computation raise KeyError at that entry or an earlier one, whatever the sales, with no warning printed |
| `ComputeSalesProperties.EmptySales` | computeSales.py:50-63 | An empty sales record gives a total of 0 and no warnings |
| `ComputeSalesProperties.KnownSaleAddsPriceTimesQuantity` | computeSales.py:57-59 | A sale of a known product with numeric price and quantity adds exactly price * quantity to the total and prints nothing |
| `ComputeSalesProperties.UnknownSaleWarnsOnce` | computeSales.py:57-61 | A sale of an unknown product leaves the total (or the exception) unchanged and appends exactly one warning naming that product |
| `ComputeSalesProperties.MissingProductIsNone` | computeSales.py:54-57 | A sale without `Product` is looked up as None: it is not found unless some title is `null`, and it is found if one is |
| `ComputeSalesProperties.MissingQuantityFails` | computeSales.py:55-59 | A sale of a known product without `Quantity` makes the run raise TypeError at that sale or an earlier one; it is never skipped |
| `ComputeSalesProperties.TotalIsMatchedCost` | computeSales.py:50-63 | The returned total equals the sum of price * quantity over the sales whose product is known |
| `ComputeSalesProperties.ReturnedTotalIsMatchedCost` | computeSales.py:50-63 | Whenever compute_total_cost returns, its value is the sum of price * quantity over the sales whose product is a catalogue title |
| `ComputeSalesProperties.TotalIgnoresOrder` | computeSales.py:50-63 | Any reordering of the sales raises exactly when the original does, and otherwise returns the same total |
| `ComputeSalesProperties.WarningsFollowInputOrder` | computeSales.py:53-61 | The warnings are the products of the unknown sales, in input order |
| `ComputeSalesProperties.WarningCount` | computeSales.py:53-61 | The number of warnings equals the number of sales whose product is not in the index |
| `ComputeSalesProperties.ExampleRun` | computeSales.py:36-63 | Prices A = 10.0 and B = 2.5 with sales of 3 A and 1 C give a total of 30 and a single warning naming C |

## Left out

- `main` (computeSales.py:66-103) is not modelled. It checks the argument count, opens and parses the two JSON files, handles `FileNotFoundError` and `JSONDecodeError`, prints the report and writes `SalesResults.txt`. All of this is I/O over library code.
- The `time.time()` measurement around the computation (computeSales.py:88-90) is not modelled: it reads the wall clock.
- Floating-point rounding is not modelled. Prices, quantities and the total are exact `real` numbers, and the `:.2f` formatting of the report is left out. As a result, the order-independence of the total (`TotalIgnoresOrder`) holds for the exact model, not for Python floats.
- Accumulate, Classify: non-finite floats and some numeric exceptions are not modelled. `json.load` accepts `NaN` and `Infinity`, and every `NaN` it reads is one and the same float object. A dictionary lookup tries identity before `==`, so a sale whose `Product` is `NaN` finds a catalogue title `NaN` even though `NaN == NaN` is false, and `Infinity * 0` gives `NaN`. An integer too large for a float makes `total_cost += …` raise `OverflowError` (computeSales.py:59). A string times a huge integer raises `OverflowError` or `MemoryError` rather than the `TypeError` the model gives. The model's numbers are finite exact reals, so every sale with two numeric operands is charged, and every string operand is a `TypeError`.
- The console output is returned as the sequence of product values the warnings name, not as formatted text.
- JSON booleans, arrays and objects as field values are not modelled. With those, `True == 1` would alias keys, and `product in dict` on an unhashable value would raise.
- Records that are not JSON objects, and top-level documents that are not lists, are not modelled.
- The position carried by each `Error` is an addition of the model. Python's exception does not carry it, but it lets the model say which record raised.
- The inputs are Dafny sequences, which are values. "The catalogue and sales are never modified" therefore holds by construction and needs no lemma.
