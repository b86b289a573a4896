/**
 * The client list (Clients/index.tsx): one row per client, with the name in
 * upper case and the balance written out inline twice, once for the colour
 * and once for the amount shown.
 */
module Clients {
  import opened Wrappers
  import opened Folds
  import Text
  import opened Ledger

  datatype ClientRow = ClientRow(id: string, caption: string, shown: int, color: string)

  /** The inline expression of one row, in the order the source writes it: the ledger's balance. */
  function InlineBalance(c: Client): (r: int)
    ensures r == Balance(c)
  {
    assert ShopDebts(c.shops) == seq(|c.shops|, i requires 0 <= i < |c.shops| => SumBy(c.shops[i].orders, LineTotal));
    SumBy(c.shops, AmountPaid)
    + SumBy(c.credits, CreditValue)
    - Sum(seq(|c.shops|, i requires 0 <= i < |c.shops| => SumBy(c.shops[i].orders, LineTotal)))
  }

  /** The colour attribute repeats the inline expression and compares it with zero. */
  function RowColor(c: Client): (color: string)
    ensures color == GREEN <==> Balance(c) >= 0
    ensures color == RED <==> Balance(c) < 0
  {
    if InlineBalance(c) >= 0 then GREEN else RED
  }

  function Row(c: Client): (r: ClientRow)
    ensures r.id == c.id && r.caption == Text.ToUpper(c.name)
    ensures r.shown == Balance(c)
    ensures r.color == GREEN <==> r.shown >= 0
    ensures r.color == RED <==> r.shown < 0
  {
    ClientRow(c.id, Text.ToUpper(c.name), InlineBalance(c), RowColor(c))
  }

  /** `data?.map(...)`: one row per client in input order; nothing while data is undefined. */
  function Rows(data: Option<seq<Client>>): (rows: seq<ClientRow>)
    ensures data.None? ==> rows == []
    ensures data.Some? ==> |rows| == |data.value|
    ensures data.Some? ==> forall i :: 0 <= i < |rows| ==> rows[i] == Row(data.value[i])
  {
    match data
    case None => []
    case Some(cs) => seq(|cs|, i requires 0 <= i < |cs| => Row(cs[i]))
  }

  /** Every row agrees with the details modal of the same client, amount and colour. */
  lemma RowsAgreeWithDetails(cs: seq<Client>, i: nat)
    requires i < |cs|
    ensures Rows(Some(cs))[i].shown == DetailsHeading(Some(cs[i])).amount.value
    ensures Rows(Some(cs))[i].color == DetailsHeading(Some(cs[i])).color
  {
  }

  /** A client with no shops and no credits shows zero in green. */
  lemma EmptyClientRow(c: Client)
    requires c.shops == [] && c.credits == []
    ensures Row(c).shown == 0 && Row(c).color == GREEN
  {
    EmptyClientBalance(c.id, c.name);
  }
}
