/**
 * The credit-card tiles and the transaction table's card column.
 *
 * A tile shows a usage bar only for a positive utilisation percentage; the bar is the percentage
 * clamped to 100 and turns to the high-usage colour strictly above 70. The transaction table looks
 * a card's name up by id in a map built from the card list, where a later card with the same id
 * replaces an earlier one; an id of 0 tests false and shows `'-'` as if there were no card.
 */
module CardViews {
  import opened Wrappers
  import opened Records
  import opened ClientTypes
  import CardUtilization

  /** One entry of the utilisation record the tiles receive, keyed by card id. */
  datatype UtilizationEntry = UtilizationEntry(utilizationPercent: real, amountSpent: real)

  datatype UsageBar = UsageBar(spent: real, percent: real, width: real, high: bool)

  datatype CardTile = CardTile(id: int, name: string, bankName: string, creditLimit: real, usage: Option<UsageBar>)

  function Min(a: real, b: real): (r: real)
    ensures r <= a && r <= b && (r == a || r == b)
  {
    if a <= b then a else b
  }

  /** `utilization[card.id] || { utilization_percent: 0, amount_spent: 0 }`. */
  function EntryFor(util: map<int, UtilizationEntry>, id: int): (e: UtilizationEntry)
    ensures id in util ==> e == util[id]
    ensures id !in util ==> e == UtilizationEntry(0.0, 0.0)
  {
    if id in util then util[id] else UtilizationEntry(0.0, 0.0)
  }

  /** One card's tile: the usage bar appears only for a positive percentage. */
  function Tile(card: ClientCard, util: map<int, UtilizationEntry>): (r: CardTile)
    ensures r.id == card.id && r.name == card.name && r.bankName == card.bankName && r.creditLimit == card.creditLimit
    ensures r.usage.Some? <==> card.id in util && util[card.id].utilizationPercent > 0.0
    ensures r.usage.Some? ==>
      var e := util[card.id];
      r.usage.value.spent == e.amountSpent && r.usage.value.percent == e.utilizationPercent
      && 0.0 < r.usage.value.width <= 100.0
      && (r.usage.value.width == e.utilizationPercent <==> e.utilizationPercent <= 100.0)
      && (r.usage.value.high <==> e.utilizationPercent > 70.0)
  {
    var e := EntryFor(util, card.id);
    var percent := e.utilizationPercent;
    var usage := if percent > 0.0 then Some(UsageBar(e.amountSpent, percent, Min(percent, 100.0), percent > 70.0)) else None;
    CardTile(card.id, card.name, card.bankName, card.creditLimit, usage)
  }

  /** `CreditCardSummary`: no tiles (only "No credit cards") for an empty list, else one tile per card in order. */
  function CardSummary(cards: seq<ClientCard>, util: map<int, UtilizationEntry>): (r: Option<seq<CardTile>>)
    ensures r.None? <==> cards == []
    ensures r.Some? ==> |r.value| == |cards| && forall k :: 0 <= k < |cards| ==> r.value[k] == Tile(cards[k], util)
  {
    if cards == [] then None
    else Some(seq(|cards|, k requires 0 <= k < |cards| => Tile(cards[k], util)))
  }

  /**
   * A tile fed with the server's utilisation report: for a positive limit and a positive amount
   * spent the bar is shown; it is drawn at full length exactly when the limit is reached, and it
   * is high exactly when more than 70% of the limit is spent.
   */
  lemma TileOfReport(card: ClientCard, spent: real, util: map<int, UtilizationEntry>)
    requires card.creditLimit > 0.0 && spent > 0.0
    requires card.id in util
    requires util[card.id] == UtilizationEntry(CardUtilization.UtilizationPercent(spent, card.creditLimit), spent)
    ensures Tile(card, util).usage.Some?
    ensures Tile(card, util).usage.value.high <==> spent * 100.0 > 70.0 * card.creditLimit
    ensures Tile(card, util).usage.value.width == 100.0 <==> spent >= card.creditLimit
  {
    var limit := card.creditLimit;
    var p := CardUtilization.UtilizationPercent(spent, limit);
    assert p * limit == spent * 100.0;
    PercentVersus(p, limit, spent, 0.0);
    PercentVersus(p, limit, spent, 70.0);
    PercentVersus(p, limit, spent, 100.0);
  }

  /** For a positive limit, the percentage compares to a threshold as the amount does to that share of the limit. */
  lemma PercentVersus(p: real, limit: real, spent: real, t: real)
    requires limit > 0.0 && p * limit == spent * 100.0
    ensures p > t <==> spent * 100.0 > t * limit
    ensures p >= t <==> spent * 100.0 >= t * limit
  {
    assert (p - t) * limit == spent * 100.0 - t * limit;
    if p > t {
      assert (p - t) * limit > 0.0;
    } else {
      assert (t - p) * limit >= 0.0;
    }
  }

  /** `new Map(cards.map(card => [card.id, card]))`: built left to right, so a later card with an id replaces an earlier one. */
  function CardMap(cards: seq<ClientCard>): (m: map<int, ClientCard>)
    ensures forall id :: id in m <==> HasId(cards, CardId, id)
    ensures forall id :: id in m ==> m[id] in cards && m[id].id == id
  {
    if cards == [] then map[]
    else
      var init := cards[..|cards| - 1];
      var last := cards[|cards| - 1];
      var m := CardMap(init)[last.id := last];
      assert forall id :: HasId(cards, CardId, id) <==> HasId(init, CardId, id) || last.id == id by {
        forall id | HasId(init, CardId, id) ensures HasId(cards, CardId, id) {
          var i :| 0 <= i < |init| && init[i].id == id;
          assert cards[i] == init[i];
        }
        forall id | HasId(cards, CardId, id) && last.id != id ensures HasId(init, CardId, id) {
          var i :| 0 <= i < |cards| && cards[i].id == id;
          assert init[i] == cards[i];
        }
      }
      assert forall c :: c in init ==> c in cards;
      m
  }

  /** A card whose id no later card repeats is the one the map holds under that id: the last one wins. */
  lemma {:induction false} CardMapLastWins(cards: seq<ClientCard>, j: int)
    requires 0 <= j < |cards|
    requires forall k :: j < k < |cards| ==> cards[k].id != cards[j].id
    ensures cards[j].id in CardMap(cards) && CardMap(cards)[cards[j].id] == cards[j]
  {
    if j < |cards| - 1 {
      var init := cards[..|cards| - 1];
      assert init[j] == cards[j];
      CardMapLastWins(init, j);
    }
  }

  /** With unique ids the map holds, under each id, the card the list holds under it. */
  lemma {:induction false} CardMapOfUniqueCards(cards: seq<ClientCard>, id: int)
    requires UniqueIds(cards, CardId) && HasId(cards, CardId, id)
    ensures CardMap(cards)[id] == FindById(cards, CardId, id).value
  {
    var i :| 0 <= i < |cards| && cards[i].id == id;
    FindInUnique(cards, CardId, id);
    var m := CardMap(cards);
    assert m[id] in cards && m[id].id == id;
    var j :| 0 <= j < |cards| && cards[j] == m[id];
    SameIdSameIndex(cards, i, j);
  }

  lemma SameIdSameIndex(cards: seq<ClientCard>, i: int, j: int)
    requires UniqueIds(cards, CardId) && 0 <= i < |cards| && 0 <= j < |cards|
    requires CardId(cards[i]) == CardId(cards[j])
    ensures i == j
  {
  }

  /** `getCardName`: `'-'` for a missing or zero id or an unknown card, the card's name otherwise. */
  function GetCardName(m: map<int, ClientCard>, cardId: Option<int>): (r: string)
    ensures cardId.None? || cardId == Some(0) ==> r == "-"
    ensures cardId.Some? && cardId.value != 0 && cardId.value in m ==> r == m[cardId.value].name
    ensures cardId.Some? && cardId.value !in m ==> r == "-"
  {
    if cardId.None? || cardId.value == 0 then "-"
    else if cardId.value in m then m[cardId.value].name
    else "-"
  }

  /** A transaction's card column names the card it was paid with, except that card id 0 always shows `'-'`. */
  lemma CardNameOfTransaction(cards: seq<ClientCard>, id: int)
    requires UniqueIds(cards, CardId)
    ensures id != 0 && HasId(cards, CardId, id) ==>
      GetCardName(CardMap(cards), Some(id)) == FindById(cards, CardId, id).value.name
    ensures !HasId(cards, CardId, id) ==> GetCardName(CardMap(cards), Some(id)) == "-"
    ensures GetCardName(CardMap(cards), Some(0)) == "-"
  {
    if id != 0 && HasId(cards, CardId, id) {
      CardMapOfUniqueCards(cards, id);
    }
  }

  /** The card column: a badge with the card's name for card payments, `'-'` for every other method. */
  datatype CardCell = Badge(name: string) | NoCard

  datatype TransactionRow = TransactionRow(id: int, card: CardCell, amountPrefix: string, amount: real)

  function TableRow(t: ClientTransaction, m: map<int, ClientCard>): (r: TransactionRow)
    ensures r.card.Badge? <==> t.paymentMethod == "card"
    ensures r.card.Badge? ==> r.card.name == GetCardName(m, t.creditCardId)
    ensures r.amountPrefix == (if t.kind == "income" then "+" else "-")
    ensures r.id == t.id && r.amount == t.amount
  {
    TransactionRow(
      t.id,
      if t.paymentMethod == "card" then Badge(GetCardName(m, t.creditCardId)) else NoCard,
      if t.kind == "income" then "+" else "-",
      t.amount)
  }

  /** `TransactionTable`: only "No transactions found" for an empty list, else one row per transaction in order. */
  function TransactionTable(ts: seq<ClientTransaction>, cards: seq<ClientCard>): (r: Option<seq<TransactionRow>>)
    ensures r.None? <==> ts == []
    ensures r.Some? ==> |r.value| == |ts| && forall k :: 0 <= k < |ts| ==> r.value[k] == TableRow(ts[k], CardMap(cards))
  {
    if ts == [] then None
    else
      var m := CardMap(cards);
      Some(seq(|ts|, k requires 0 <= k < |ts| => TableRow(ts[k], m)))
  }
}
