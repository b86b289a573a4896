/**
 * The sales list (AllShop/index.tsx): only paid sales are rendered, and the
 * delivery status picks an icon and greys out the delivered ones. The sales
 * come from `getShop` (useShop.tsx), whose projection does not copy `paid`.
 */
module AllShop {
  import opened Wrappers
  import opened Sequences

  /** A sale as the list reads it; `paid` is `undefined` when the record lacks it. */
  datatype Sale = Sale(id: string, createdAt: string, clientName: string, paid: Option<bool>, status: string)

  datatype Icon = Box | Truck | Check

  datatype SaleRow = SaleRow(sale: Sale, color: string, greyed: bool, icon: Option<Icon>)

  const PAID_COLOR := "#00FF00"
  const UNPAID_COLOR := "#A9A9A9"

  /** `shop.paid` is truthy. */
  predicate Paid(s: Sale)
  {
    s.paid == Some(true)
  }

  /** The three conditional icons, of which at most one can match a status. */
  function StatusIcon(status: string): (icon: Option<Icon>)
    ensures icon == Some(Box) <==> status == "Preparando"
    ensures icon == Some(Truck) <==> status == "Enviado"
    ensures icon == Some(Check) <==> status == "Entregue"
    ensures icon == None <==> status !in {"Preparando", "Enviado", "Entregue"}
  {
    if status == "Preparando" then Some(Box)
    else if status == "Enviado" then Some(Truck)
    else if status == "Entregue" then Some(Check)
    else None
  }

  /** The row of a sale, with the `paid ? green : grey` colour of the row. */
  function Row(s: Sale): (r: SaleRow)
    ensures r.sale == s
    ensures r.color == PAID_COLOR <==> Paid(s)
    ensures r.color == UNPAID_COLOR <==> !Paid(s)
    ensures r.greyed <==> s.status == "Entregue"
    ensures r.icon == StatusIcon(s.status)
  {
    SaleRow(s, if Paid(s) then PAID_COLOR else UNPAID_COLOR, s.status == "Entregue", StatusIcon(s.status))
  }

  /** `data?.map(Row)` before React drops the `false` entries. */
  function AllRows(data: seq<Sale>): (rows: seq<SaleRow>)
    ensures |rows| == |data| && forall i :: 0 <= i < |data| ==> rows[i] == Row(data[i])
  {
    seq(|data|, i requires 0 <= i < |data| => Row(data[i]))
  }

  /** `data?.map(shop => shop.paid && <row>)`: the unpaid entries render nothing. */
  function VisibleRows(data: seq<Sale>): (rows: seq<SaleRow>)
    ensures |rows| <= |data|
    ensures SubsequenceOf(rows, AllRows(data))
    ensures forall r :: r in rows ==> r.sale in data && Paid(r.sale) && r == Row(r.sale)
    ensures forall r :: r in rows ==> r.color == PAID_COLOR
    ensures forall s :: s in data && Paid(s) ==> Row(s) in rows
    ensures forall s :: multiset(rows)[Row(s)] == if Paid(s) then multiset(data)[s] else 0
    decreases |data|
  {
    if |data| == 0 then []
    else
      var rest := VisibleRows(data[1..]);
      var head := if Paid(data[0]) then [Row(data[0])] else [];
      assert AllRows(data)[1..] == AllRows(data[1..]);
      assert (head + rest)[|head|..] == rest;
      PaidCounts(data, rest);
      head + rest
  }

  /** One step of `VisibleRows`: rendering or skipping the head keeps every sale's count right. */
  lemma PaidCounts(data: seq<Sale>, rest: seq<SaleRow>)
    requires |data| > 0
    requires forall s :: multiset(rest)[Row(s)] == if Paid(s) then multiset(data[1..])[s] else 0
    requires forall r :: r in rest ==> r.sale in data[1..] && Paid(r.sale) && r == Row(r.sale)
    ensures var rows := (if Paid(data[0]) then [Row(data[0])] else []) + rest;
            && (forall s :: multiset(rows)[Row(s)] == if Paid(s) then multiset(data)[s] else 0)
            && (forall s :: s in data && Paid(s) ==> Row(s) in rows)
            && (forall r :: r in rows ==> r.sale in data && Paid(r.sale) && r == Row(r.sale))
  {
    assert data == [data[0]] + data[1..];
    assert multiset(data) == multiset{data[0]} + multiset(data[1..]);
    var rows := (if Paid(data[0]) then [Row(data[0])] else []) + rest;
    forall s | s in data && Paid(s)
      ensures Row(s) in rows
    {
      assert multiset(data)[s] > 0;
      assert multiset(rows)[Row(s)] > 0;
    }
  }

  /** The projection of `getShop`: every field the list needs except `paid`. */
  function GetShopProjection(raw: seq<Sale>): (r: seq<Sale>)
    ensures |r| == |raw|
    ensures forall i :: 0 <= i < |raw| ==> r[i] == raw[i].(paid := None)
  {
    seq(|raw|, i requires 0 <= i < |raw| => raw[i].(paid := None))
  }

  /** Fed from `getShop`, the list renders no row at all. */
  lemma {:induction false} NothingRenderedFromGetShop(raw: seq<Sale>)
    ensures VisibleRows(GetShopProjection(raw)) == []
    decreases |raw|
  {
    if |raw| > 0 {
      assert GetShopProjection(raw)[1..] == GetShopProjection(raw[1..]);
      NothingRenderedFromGetShop(raw[1..]);
    }
  }

  /** Date and client name are greyed exactly for delivered sales, which also show the check icon. */
  lemma DeliveredRows(s: Sale)
    ensures Row(s).greyed <==> Row(s).icon == Some(Check)
  {
  }
}
