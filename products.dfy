/**
 * The product table (Products/index.tsx): a case-insensitive name filter over
 * the fetched products, and a red row for low stock.
 */
module Products {
  import opened Wrappers
  import opened Text
  import opened Sequences

  datatype Product = Product(id: string, name: string, price: int, amount: int)

  /** A product row, red when stock is low. */
  datatype ProductRow = ProductRow(product: Product, red: bool)

  /** Rows with less stock than this are red. */
  const LOW_STOCK := 3

  /** The lower-cased name contains the lower-cased filter. */
  predicate NameMatches(p: Product, filter: string)
  {
    Includes(ToLower(p.name), ToLower(filter))
  }

  /** The `filter` callback: an empty filter keeps everything, otherwise the name must match. */
  predicate Keeps(p: Product, filter: string)
  {
    filter == "" || NameMatches(p, filter)
  }

  /** `data.filter(...)`, left to right. */
  function FilterByName(data: seq<Product>, filter: string): (r: seq<Product>)
    ensures filter == "" ==> r == data
    ensures forall p :: p in r <==> p in data && Keeps(p, filter)
    ensures forall p :: multiset(r)[p] == if Keeps(p, filter) then multiset(data)[p] else 0
    ensures |r| <= |data|
    ensures SubsequenceOf(r, data)
    decreases |data|
  {
    if |data| == 0 then []
    else
      var rest := FilterByName(data[1..], filter);
      var head := if Keeps(data[0], filter) then [data[0]] else [];
      assert (head + rest)[|head|..] == rest;
      KeptCounts(data, filter, rest);
      head + rest
  }

  /** One step of `FilterByName`: keeping or dropping the head keeps every product's count right. */
  lemma KeptCounts(data: seq<Product>, filter: string, rest: seq<Product>)
    requires |data| > 0
    requires forall p :: multiset(rest)[p] == if Keeps(p, filter) then multiset(data[1..])[p] else 0
    ensures var r := (if Keeps(data[0], filter) then [data[0]] else []) + rest;
            && (forall p :: multiset(r)[p] == if Keeps(p, filter) then multiset(data)[p] else 0)
            && (forall p :: p in r <==> p in data && Keeps(p, filter))
  {
    assert data == [data[0]] + data[1..];
    assert multiset(data) == multiset{data[0]} + multiset(data[1..]);
    var r := (if Keeps(data[0], filter) then [data[0]] else []) + rest;
    forall p
      ensures p in r <==> p in data && Keeps(p, filter)
    {
      assert p in r <==> multiset(r)[p] > 0;
      assert p in data <==> multiset(data)[p] > 0;
    }
  }

  /** A product row is red exactly when fewer than three are in stock. */
  function Row(p: Product): (r: ProductRow)
    ensures r.product == p
    ensures r.red <==> p.amount < 3
  {
    ProductRow(p, p.amount < LOW_STOCK)
  }

  /** `data && data.filter(...).map(...)`: no rows while data is undefined. */
  function Rows(data: Option<seq<Product>>, filter: string): (rows: seq<ProductRow>)
    ensures data.None? ==> rows == []
    ensures data.Some? ==> |rows| == |FilterByName(data.value, filter)|
    ensures data.Some? ==> forall i :: 0 <= i < |rows| ==> rows[i] == Row(FilterByName(data.value, filter)[i])
  {
    match data
    case None => []
    case Some(ps) =>
      var kept := FilterByName(ps, filter);
      seq(|kept|, i requires 0 <= i < |kept| => Row(kept[i]))
  }

  /** Typing the filter in upper case selects the same products (ASCII names). */
  lemma {:induction false} FilterIgnoresCase(data: seq<Product>, filter: string)
    ensures FilterByName(data, ToUpper(filter)) == FilterByName(data, filter)
    decreases |data|
  {
    LowerOfUpper(filter);
    assert ToUpper(filter) == "" <==> filter == "";
    if |data| > 0 {
      FilterIgnoresCase(data[1..], filter);
    }
  }

  /** The empty filter would match every name anyway: the empty string occurs in any text. */
  lemma EmptyFilterMatchesAll(p: Product)
    ensures NameMatches(p, "")
  {
    assert ToLower("") == "";
    assert OccursAt(ToLower(p.name), "", 0);
  }
}
