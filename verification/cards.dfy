/** The three card kinds and the rock-paper-scissors rule that decides a
    battle turn. The UI labels them 가위 (Scissors), 바위 (Rock) and 보 (Paper). */
module Cards {

  datatype Card = Scissors | Rock | Paper

  /** The three results of comparing the first card with the second. */
  datatype Outcome = Tie | FirstWins | SecondWins

  /** One of each kind, in the order the source lists them. */
  const ALL_KINDS: seq<Card> := [Scissors, Rock, Paper]

  /** `["가위", "바위", "보"] * 2`: the six-card battle hand. */
  const TWO_OF_EACH: seq<Card> := ALL_KINDS + ALL_KINDS

  /** Place of a kind on the cycle Scissors -> Rock -> Paper -> Scissors. */
  function Position(c: Card): int
  {
    match c
    case Scissors => 0
    case Rock => 1
    case Paper => 2
  }

  /** Reference rule, independent of `Compare`'s case list: a kind beats the
      kind just before it on the cycle. */
  predicate Beats(a: Card, b: Card)
  {
    (Position(a) - Position(b)) % 3 == 1
  }

  /** The win rule shared by every `determine_winner` copy: equal kinds tie,
      (Scissors, Paper), (Rock, Scissors) and (Paper, Rock) go to the first
      card, every other pair to the second. */
  function Compare(a: Card, b: Card): (r: Outcome)
    ensures r == Tie <==> a == b
    ensures r == FirstWins <==> Beats(a, b)
    ensures r == SecondWins <==> Beats(b, a)
  {
    if a == b then Tie
    else if (a == Scissors && b == Paper) || (a == Rock && b == Scissors) || (a == Paper && b == Rock) then FirstWins
    else SecondWins
  }

  function Swap(o: Outcome): Outcome
  {
    match o
    case Tie => Tie
    case FirstWins => SecondWins
    case SecondWins => FirstWins
  }

  /** Exchanging the cards exchanges the winner and keeps a tie a tie. */
  lemma CompareSwapped(a: Card, b: Card)
    ensures Compare(b, a) == Swap(Compare(a, b))
  {
  }

  /** Every kind beats exactly one kind and loses to exactly one kind, so the
      rule is total and no kind dominates. */
  lemma BeatsIsACycle(a: Card)
    ensures exists b :: Beats(a, b)
    ensures exists b :: Beats(b, a)
    ensures forall b, c :: Beats(a, b) && Beats(a, c) ==> b == c
    ensures forall b, c :: Beats(b, a) && Beats(c, a) ==> b == c
    ensures !Beats(a, a)
  {
    match a
    case Scissors => assert Beats(Scissors, Paper) && Beats(Rock, Scissors);
    case Rock => assert Beats(Rock, Scissors) && Beats(Paper, Rock);
    case Paper => assert Beats(Paper, Rock) && Beats(Scissors, Paper);
  }

  /** The battle hand holds exactly two cards of each kind. */
  lemma TwoOfEachCounts(c: Card)
    ensures |TWO_OF_EACH| == 6 && multiset(TWO_OF_EACH)[c] == 2
  {
  }

  /** `determine_winner` of the local game and of the server: "TIE" on equal
      kinds, otherwise "P1_WIN" or "P2_WIN" for the side whose card wins. */
  function DetermineWinner(a: Card, b: Card): (r: string)
    ensures r == "TIE" <==> a == b
    ensures r == "P1_WIN" <==> Beats(a, b)
    ensures r == "P2_WIN" <==> Beats(b, a)
  {
    match Compare(a, b)
    case Tie => "TIE"
    case FirstWins => "P1_WIN"
    case SecondWins => "P2_WIN"
  }
}
