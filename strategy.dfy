/** The fixed basic-strategy table (dealer stands on soft 17, double after
    split): a total map from the player's cards and the dealer's upcard to an
    action. */
module Strategy {
  import opened Cards
  import opened Hands
  import opened Wrappers

  datatype Action = Hit | Stand | Double | Split

  /** The pair table. `None` stands for falling through to the totals, which
      happens for a paired value the table does not list (none of 1..10).
      Only fives are ever doubled from the pair table. */
  function PairAction(v: int, up: int): (a: Option<Action>)
    ensures a.Some? <==> 1 <= v <= 10
    ensures a == Some(Double) ==> v == 5
  {
    if v == 1 then Some(Split)
    else if v == 8 then Some(Split)
    else if v == 10 then Some(Stand)
    else if v == 9 then Some(if up in {2, 3, 4, 5, 6, 8, 9} then Split else Stand)
    else if v == 7 then Some(if up in {2, 3, 4, 5, 6, 7} then Split else Hit)
    else if v == 6 then Some(if up in {2, 3, 4, 5, 6} then Split else Hit)
    else if v == 5 then Some(if up in {2, 3, 4, 5, 6, 7, 8, 9} then Double else Hit)
    else if v == 4 then Some(if up in {5, 6} then Split else Hit)
    else if v in {2, 3} then Some(if up in {2, 3, 4, 5, 6, 7} then Split else Hit)
    else None
  }

  /** The soft-total rows (an ace counted as 11). */
  function SoftAction(total: int, up: int): (a: Action)
    ensures a != Split
    ensures total >= 19 ==> a == Stand
    ensures a == Double ==> 13 <= total <= 18 && 3 <= up <= 6
  {
    if total <= 17 && total in {13, 14} then (if up in {5, 6} then Double else Hit)
    else if total <= 17 && total in {15, 16} then (if up in {4, 5, 6} then Double else Hit)
    else if total == 17 then (if up in {3, 4, 5, 6} then Double else Hit)
    else if total == 18 then (if up in {3, 4, 5, 6} then Double else if up in {2, 7, 8} then Stand else Hit)
    else Stand
  }

  /** The hard-total rows. */
  function HardAction(total: int, up: int): (a: Action)
    ensures a != Split
    ensures total <= 8 ==> a == Hit
    ensures total >= 17 ==> a == Stand
    ensures a == Double ==> 9 <= total <= 11
  {
    if total <= 8 then Hit
    else if total == 9 then (if up in {3, 4, 5, 6} then Double else Hit)
    else if total == 10 then (if up in {2, 3, 4, 5, 6, 7, 8, 9} then Double else Hit)
    else if total == 11 then (if up != 1 then Double else Hit)
    else if total == 12 then (if up in {4, 5, 6} then Stand else Hit)
    else if total in {13, 14, 15, 16} then (if up in {2, 3, 4, 5, 6} then Stand else Hit)
    else Stand
  }

  /** The table: pairs first, then soft totals, then hard totals. The upcard
      is looked at only through its count value (an ace is 1). */
  function BasicStrategy(player: seq<Card>, upcard: Card): (a: Action)
    ensures IsPair(player) ==> Some(a) == PairAction(player[0].Value(), upcard.Value())
    ensures !IsPair(player) && HandValue(player).1 ==> a == SoftAction(HandTotal(player), upcard.Value())
    ensures !IsPair(player) && !HandValue(player).1 ==> a == HardAction(HandTotal(player), upcard.Value())
  {
    var up := upcard.Value();
    if IsPair(player) && PairAction(player[0].Value(), up).Some? then
      PairAction(player[0].Value(), up).value
    else
      var (total, soft) := HandValue(player);
      if soft then SoftAction(total, up) else HardAction(total, up)
  }

  /** Every paired value has a row of the pair table, so a pair never reaches
      the totals. */
  lemma PairTableIsComplete(v: int, up: int)
    requires 1 <= v <= 10
    ensures PairAction(v, up).Some?
  {
  }

  /** Aces and eights are always split. */
  lemma AcesAndEightsSplit(player: seq<Card>, upcard: Card)
    requires IsPair(player) && player[0].Value() in {1, 8}
    ensures BasicStrategy(player, upcard) == Split
  {
  }

  /** Two ten-value cards (ten and king included) always stand. */
  lemma TensStand(player: seq<Card>, upcard: Card)
    requires IsPair(player) && player[0].Value() == 10
    ensures BasicStrategy(player, upcard) == Stand
  {
  }

  /** Two fives are a hard ten: double against 2 to 9, hit otherwise. */
  lemma FivesDoubleOrHit(player: seq<Card>, upcard: Card)
    requires IsPair(player) && player[0].Value() == 5
    ensures 2 <= upcard.Value() <= 9 ==> BasicStrategy(player, upcard) == Double
    ensures !(2 <= upcard.Value() <= 9) ==> BasicStrategy(player, upcard) == Hit
  {
  }

  /** Soft 19 or more stands against every upcard. */
  lemma SoftNineteenStands(player: seq<Card>, upcard: Card)
    requires HandValue(player).1 && HandTotal(player) >= 19
    ensures BasicStrategy(player, upcard) == Stand
  {
    if IsPair(player) {
      PairTotal(player);
    }
  }

  /** Soft 18 doubles against 3 to 6, stands against 2, 7 and 8, and hits
      against 9, ten-value cards and the ace. */
  lemma SoftEighteen(player: seq<Card>, upcard: Card)
    requires HandValue(player) == (18, true)
    ensures 3 <= upcard.Value() <= 6 ==> BasicStrategy(player, upcard) == Double
    ensures upcard.Value() in {2, 7, 8} ==> BasicStrategy(player, upcard) == Stand
    ensures upcard.Value() in {1, 9, 10} ==> BasicStrategy(player, upcard) == Hit
  {
    if IsPair(player) {
      PairTotal(player);
    }
  }

  /** A hard total that is not a pair: 16 against a ten hits, 11 against an
      ace hits, 17 or more stands. */
  lemma HardTotals(player: seq<Card>, upcard: Card)
    requires !IsPair(player) && !HandValue(player).1
    ensures HandTotal(player) == 16 && upcard.Value() == 10 ==> BasicStrategy(player, upcard) == Hit
    ensures HandTotal(player) == 11 && upcard.Value() == 1 ==> BasicStrategy(player, upcard) == Hit
    ensures HandTotal(player) >= 17 ==> BasicStrategy(player, upcard) == Stand
  {
  }

  /** Only a pair is ever advised to split. */
  lemma SplitOnlyPairs(player: seq<Card>, upcard: Card)
    requires BasicStrategy(player, upcard) == Split
    ensures IsPair(player)
  {
  }

  /** A hard 16 of ten and six against a king hits; a pair of eights against
      a ten splits although it is a hard 16 as well. */
  lemma SixteenAgainstTen()
    ensures BasicStrategy([Card(Ten, Spades), Card(Six, Hearts)], Card(King, Clubs)) == Hit
    ensures BasicStrategy([Card(Eight, Spades), Card(Eight, Hearts)], Card(Ten, Clubs)) == Split
  {
    RawOfTwo(Card(Ten, Spades), Card(Six, Hearts));
  }
}
