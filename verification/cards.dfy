/** Card valuation and Blackjack hand scoring, as done by the dealer agent's
    `calculate_card_value` and `calculate_hand_score` tools. */
module Cards {
  import opened Wrappers
  import opened Errors

  /** A card as the deck service reports it: face value text ("2".."10",
      "JACK", "QUEEN", "KING", "ACE"), short code and suit name. */
  datatype Card = Card(value: string, code: string, suit: string)

  /** The thirteen ranks of a standard deck, as an independent reference for card values. */
  datatype Rank = Two | Three | Four | Five | Six | Seven | Eight | Nine | Ten
                | Jack | Queen | King | Ace

  /** The text the deck service uses for a rank's value. */
  function RankName(r: Rank): string {
    match r
    case Two => "2"
    case Three => "3"
    case Four => "4"
    case Five => "5"
    case Six => "6"
    case Seven => "7"
    case Eight => "8"
    case Nine => "9"
    case Ten => "10"
    case Jack => "JACK"
    case Queen => "QUEEN"
    case King => "KING"
    case Ace => "ACE"
  }

  /** Blackjack points of a rank before any ace is counted low. */
  function Points(r: Rank): nat {
    match r
    case Two => 2
    case Three => 3
    case Four => 4
    case Five => 5
    case Six => 6
    case Seven => 7
    case Eight => 8
    case Nine => 9
    case Ten => 10
    case Jack => 10
    case Queen => 10
    case King => 10
    case Ace => 11
  }

  // ---------------------------------------------------------------------------
  // Python's int() on an integer literal

  predicate IsDigit(c: char) {
    '0' <= c <= '9'
  }

  predicate AllDigits(s: string) {
    forall i | 0 <= i < |s| :: IsDigit(s[i])
  }

  /** The number a string of decimal digits denotes (most significant first). */
  function DigitsValue(s: string): nat
    requires AllDigits(s)
  {
    if |s| == 0 then 0
    else DigitsValue(s[..|s| - 1]) * 10 + (s[|s| - 1] as int - '0' as int)
  }

  /** `int(s)` for an optionally signed run of ASCII digits; None where Python raises ValueError. */
  function ParseInt(s: string): Option<int> {
    if |s| > 0 && (s[0] == '+' || s[0] == '-') then
      if |s| > 1 && AllDigits(s[1..]) then
        var n: int := DigitsValue(s[1..]);
        Some(if s[0] == '-' then -n else n)
      else None
    else if |s| > 0 && AllDigits(s) then Some(DigitsValue(s))
    else None
  }

  function Digit(d: nat): char
    requires d < 10
  {
    ('0' as int + d) as char
  }

  /** Decimal rendering of a natural number, the inverse partner of ParseInt. */
  function ShowInt(n: nat): string
  {
    if n < 10 then [Digit(n)] else ShowInt(n / 10) + [Digit(n % 10)]
  }

  lemma {:induction false} ShowIntDigits(n: nat)
    ensures |ShowInt(n)| > 0 && AllDigits(ShowInt(n)) && DigitsValue(ShowInt(n)) == n
  {
    if n >= 10 {
      ShowIntDigits(n / 10);
      var s := ShowInt(n);
      assert s[..|s| - 1] == ShowInt(n / 10);
    }
  }

  /** Parsing the decimal rendering of any natural number gives it back. */
  lemma ParseShowRoundTrip(n: nat)
    ensures ParseInt(ShowInt(n)) == Some(n)
  {
    ShowIntDigits(n);
    assert IsDigit(ShowInt(n)[0]);
  }

  // ---------------------------------------------------------------------------
  // Card value

  /** Points of one card: 10 for a face card, 11 for an ace, otherwise the integer
      its value text denotes; text that is not an integer literal raises ValueError. */
  function CardValue(card: Card): (r: Result<int, PyException>)
    ensures r.Failure? <==> card.value !in ["JACK", "QUEEN", "KING", "ACE"] && ParseInt(card.value).None?
    ensures r.Failure? ==> r.error == ValueError
    ensures card.value in ["JACK", "QUEEN", "KING"] ==> r == Success(10)
    ensures card.value == "ACE" ==> r == Success(11)
    ensures card.value !in ["JACK", "QUEEN", "KING", "ACE"] && ParseInt(card.value).Some? ==>
      r == Success(ParseInt(card.value).value)
  {
    if card.value in ["JACK", "QUEEN", "KING"] then Success(10)
    else if card.value == "ACE" then Success(11)
    else match ParseInt(card.value)
      case Some(n) => Success(n)
      case None => Failure(ValueError)
  }

  /** Every standard rank is valued at its reference points, whatever the code and suit. */
  lemma StandardRankValue(r: Rank, code: string, suit: string)
    ensures CardValue(Card(RankName(r), code, suit)) == Success(Points(r))
  {
    match r
    case Two => ParseShowRoundTrip(2);
    case Three => ParseShowRoundTrip(3);
    case Four => ParseShowRoundTrip(4);
    case Five => ParseShowRoundTrip(5);
    case Six => ParseShowRoundTrip(6);
    case Seven => ParseShowRoundTrip(7);
    case Eight => ParseShowRoundTrip(8);
    case Nine => ParseShowRoundTrip(9);
    case Ten =>
      ParseShowRoundTrip(10);
      assert ShowInt(10) == ShowInt(1) + [Digit(0)] == "10";
    case _ =>
  }

  /** A card whose value text is "11" is worth 11, the same as an ace, so the
      scoring loop counts it among the aces it may count low. */
  lemma ElevenTextCountsAsAce()
    ensures CardValue(Card("11", "", "")) == Success(11)
    ensures HandScore([Card("11", "", ""), Card("ACE", "", "")]) == Success(12)
  {
    ParseShowRoundTrip(11);
    assert ShowInt(11) == ShowInt(1) + [Digit(1)] == "11";
    var e, a := Card("11", "", ""), Card("ACE", "", "");
    TotalsOfSnoc([], e);
    TotalsOfSnoc([] + [e], a);
    assert [] + [e] + [a] == [e, a];
  }

  // ---------------------------------------------------------------------------
  // Hand score

  /** Every card of the hand has a value (no card makes `int(...)` raise). */
  predicate ValidHand(hand: seq<Card>) {
    forall i | 0 <= i < |hand| :: CardValue(hand[i]).Success?
  }

  /** Sum of the standalone card values, every ace counted as 11. */
  function BaseTotal(hand: seq<Card>): int
    requires ValidHand(hand)
  {
    if |hand| == 0 then 0
    else BaseTotal(hand[..|hand| - 1]) + CardValue(hand[|hand| - 1]).value
  }

  /** Number of cards whose standalone value is 11: the aces the score may count low. */
  function AceCount(hand: seq<Card>): nat
    requires ValidHand(hand)
  {
    if |hand| == 0 then 0
    else AceCount(hand[..|hand| - 1]) + (if CardValue(hand[|hand| - 1]).value == 11 then 1 else 0)
  }

  /** Counting `k` of `aces` aces low (−10 each) starting from `total` is the greedy
      choice: every downgrade made was needed (the total before it was over 21), and
      downgrading stopped only at a total of at most 21 or when no ace was left. */
  predicate IsGreedyDowngrade(total: int, aces: nat, k: nat) {
    && k <= aces
    && (k > 0 ==> total - 10 * (k - 1) > 21)
    && (k < aces ==> total - 10 * k <= 21)
  }

  /** The number of downgrades the scoring loop performs from `total` with `aces` aces. */
  function Downgrades(total: int, aces: nat): (k: nat)
    ensures IsGreedyDowngrade(total, aces, k)
    decreases aces
  {
    if total > 21 && aces > 0 then 1 + Downgrades(total - 10, aces - 1) else 0
  }

  /** The Blackjack score of a hand: the base total with aces counted low greedily
      while the total is over 21. */
  function HandScore(hand: seq<Card>): (r: Result<int, PyException>)
    ensures r.Success? <==> ValidHand(hand)
    ensures r.Failure? ==> r.error == ValueError
    ensures r.Success? ==>
      exists k: nat :: IsGreedyDowngrade(BaseTotal(hand), AceCount(hand), k) && r.value == BaseTotal(hand) - 10 * k
  {
    if ValidHand(hand) then
      var k := Downgrades(BaseTotal(hand), AceCount(hand));
      Success(BaseTotal(hand) - 10 * k)
    else Failure(ValueError)
  }

  /** The scoring tool as written: one pass summing card values and counting aces,
      then a loop taking 10 off per ace while the score is over 21. */
  method CalculateHandScore(hand: seq<Card>) returns (r: Result<int, PyException>)
    ensures r == HandScore(hand)
  {
    var score := 0;
    var numAces := 0;
    var i := 0;
    while i < |hand|
      invariant 0 <= i <= |hand|
      invariant ValidHand(hand[..i])
      invariant score == BaseTotal(hand[..i]) && numAces == AceCount(hand[..i])
    {
      var v := CardValue(hand[i]);
      if v.Failure? {
        return Failure(ValueError);
      }
      assert hand[..i + 1] == hand[..i] + [hand[i]];
      TotalsOfSnoc(hand[..i], hand[i]);
      if v.value == 11 {
        numAces := numAces + 1;
      }
      score := score + v.value;
      i := i + 1;
    }
    assert hand[..i] == hand;
    ghost var total := score;
    ghost var aces := numAces;
    while score > 21 && numAces > 0
      invariant 0 <= numAces
      invariant score - 10 * Downgrades(score, numAces) == total - 10 * Downgrades(total, aces)
    {
      score := score - 10;
      numAces := numAces - 1;
    }
    r := Success(score);
  }

  /** A greedy downgrade count is exactly the count the scoring loop performs,
      so the greedy characterisation determines the score uniquely. */
  lemma GreedyIsUnique(total: int, aces: nat, k: nat)
    requires IsGreedyDowngrade(total, aces, k)
    ensures k == Downgrades(total, aces)
  {
  }

  /** The empty hand scores 0. */
  lemma EmptyHandScoresZero()
    ensures HandScore([]) == Success(0)
  {
  }

  /** The score of a valid hand in terms of its base total and ace count. */
  lemma ScoreOf(hand: seq<Card>, total: int, aces: nat)
    requires ValidHand(hand) && BaseTotal(hand) == total && AceCount(hand) == aces
    ensures HandScore(hand) == Success(total - 10 * Downgrades(total, aces))
  {
  }

  /** The greedy count in numbers alone: at most the aces, none at or below 21,
      all aces when the result is still over 21, and each one needed. */
  lemma DowngradeFacts(total: int, aces: nat)
    ensures var k := Downgrades(total, aces);
      && 0 <= k <= aces
      && (total <= 21 ==> k == 0)
      && (total - 10 * k > 21 ==> k == aces)
      && (k > 0 ==> total - 10 * k + 10 > 21)
  {
  }

  /** Downgrades are minimal: none when the base total is at most 21, all aces when
      the final score is still over 21, and every downgrade made was needed. */
  lemma DowngradesAreMinimal(hand: seq<Card>)
    requires ValidHand(hand)
    ensures HandScore(hand).Success?
    ensures BaseTotal(hand) - 10 * AceCount(hand) <= HandScore(hand).value <= BaseTotal(hand)
    ensures (BaseTotal(hand) - HandScore(hand).value) % 10 == 0
    ensures BaseTotal(hand) <= 21 ==> HandScore(hand).value == BaseTotal(hand)
    ensures HandScore(hand).value > 21 ==> HandScore(hand).value == BaseTotal(hand) - 10 * AceCount(hand)
    ensures HandScore(hand).value < BaseTotal(hand) ==> HandScore(hand).value + 10 > 21
  {
    var t, a := BaseTotal(hand), AceCount(hand);
    ScoreOf(hand, t, a);
    DowngradeFacts(t, a);
  }

  /** The greedy score is the best score reachable without busting: whenever counting
      some number j of aces low gives at most 21, the score is at most 21 and no lower. */
  lemma ScoreIsBestNonBust(hand: seq<Card>, j: nat)
    requires ValidHand(hand)
    requires j <= AceCount(hand) && BaseTotal(hand) - 10 * j <= 21
    ensures HandScore(hand).Success?
    ensures BaseTotal(hand) - 10 * j <= HandScore(hand).value <= 21
  {
    var k := Downgrades(BaseTotal(hand), AceCount(hand));
    assert HandScore(hand).value == BaseTotal(hand) - 10 * k;
    var t := BaseTotal(hand);
    assert k > 0 ==> t - 10 * (k - 1) > 21;
    assert k <= j;
  }

  /** The standard card of a rank as the deck service names it (code and suit left empty). */
  function StdCard(r: Rank): Card {
    Card(RankName(r), "", "")
  }

  /** Appending a card adds its value to the base total and counts it if it is an ace. */
  lemma {:induction false} TotalsOfSnoc(hand: seq<Card>, c: Card)
    requires ValidHand(hand) && CardValue(c).Success?
    ensures ValidHand(hand + [c])
    ensures BaseTotal(hand + [c]) == BaseTotal(hand) + CardValue(c).value
    ensures AceCount(hand + [c]) == AceCount(hand) + (if CardValue(c).value == 11 then 1 else 0)
  {
    assert (hand + [c])[..|hand|] == hand;
  }

  /** Appending a standard card adds its reference points and counts it if it is an ace. */
  lemma SnocStd(hand: seq<Card>, r: Rank)
    requires ValidHand(hand)
    ensures ValidHand(hand + [StdCard(r)])
    ensures BaseTotal(hand + [StdCard(r)]) == BaseTotal(hand) + Points(r)
    ensures AceCount(hand + [StdCard(r)]) == AceCount(hand) + (if r == Ace then 1 else 0)
  {
    StandardRankValue(r, "", "");
    TotalsOfSnoc(hand, StdCard(r));
  }

  /** Ace and king: 21. */
  lemma AceKingScores21()
    ensures HandScore([StdCard(Ace), StdCard(King)]) == Success(21)
  {
    var h1 := [] + [StdCard(Ace)];
    var h2 := h1 + [StdCard(King)];
    SnocStd([], Ace);
    SnocStd(h1, King);
    assert h2 == [StdCard(Ace), StdCard(King)];
    ScoreOf(h2, 21, 1);
  }

  /** Two aces and a nine: 31, then 21 after one ace is counted low. */
  lemma TwoAcesNineScores21()
    ensures HandScore([StdCard(Ace), StdCard(Ace), StdCard(Nine)]) == Success(21)
  {
    var h1 := [] + [StdCard(Ace)];
    var h2 := h1 + [StdCard(Ace)];
    var h3 := h2 + [StdCard(Nine)];
    SnocStd([], Ace);
    SnocStd(h1, Ace);
    SnocStd(h2, Nine);
    assert h3 == [StdCard(Ace), StdCard(Ace), StdCard(Nine)];
    ScoreOf(h3, 31, 2);
    assert Downgrades(31, 2) == 1 + Downgrades(21, 1) == 1;
  }

  /** The base total and ace count of three aces and an eight. */
  lemma ThreeAcesEightTotals()
    ensures ValidHand([StdCard(Ace), StdCard(Ace), StdCard(Ace), StdCard(Eight)])
    ensures BaseTotal([StdCard(Ace), StdCard(Ace), StdCard(Ace), StdCard(Eight)]) == 41
    ensures AceCount([StdCard(Ace), StdCard(Ace), StdCard(Ace), StdCard(Eight)]) == 3
  {
    var h1 := [] + [StdCard(Ace)];
    var h2 := h1 + [StdCard(Ace)];
    var h3 := h2 + [StdCard(Ace)];
    SnocStd([], Ace);
    SnocStd(h1, Ace);
    SnocStd(h2, Ace);
    SnocStd(h3, Eight);
    assert h3 + [StdCard(Eight)] == [StdCard(Ace), StdCard(Ace), StdCard(Ace), StdCard(Eight)];
  }

  /** Three aces and an eight: 41, then 31, then 21 — two aces counted low. */
  lemma ThreeAcesEightScores21()
    ensures HandScore([StdCard(Ace), StdCard(Ace), StdCard(Ace), StdCard(Eight)]) == Success(21)
  {
    ThreeAcesEightTotals();
    ScoreOf([StdCard(Ace), StdCard(Ace), StdCard(Ace), StdCard(Eight)], 41, 3);
    assert Downgrades(41, 3) == 1 + Downgrades(31, 2) == 2 + Downgrades(21, 1) == 2;
  }

  /** Ten, ten, five: 25, a bust with no ace to count low. */
  lemma TenTenFiveScores25()
    ensures HandScore([StdCard(Ten), StdCard(Ten), StdCard(Five)]) == Success(25)
  {
    var h1 := [] + [StdCard(Ten)];
    var h2 := h1 + [StdCard(Ten)];
    var h3 := h2 + [StdCard(Five)];
    SnocStd([], Ten);
    SnocStd(h1, Ten);
    SnocStd(h2, Five);
    assert h3 == [StdCard(Ten), StdCard(Ten), StdCard(Five)];
    ScoreOf(h3, 25, 0);
  }
}
