/**
 * One round of rock-paper-scissors (`!가위바위보`): reading the user's move,
 * drawing the bot's move and deciding the outcome from the user's side.
 */
module Game {
  import opened Wrappers
  import Random

  /** 가위 (scissors), 바위 (rock), 보 (paper). */
  datatype Move = Scissors | Rock | Paper

  datatype Outcome = Win | Loss | Draw

  /** The `RCP` array of `handleRCP`, in its order. */
  const Moves: seq<Move> := [Scissors, Rock, Paper]

  /** The chat token of a move. */
  function Token(m: Move): string {
    match m
    case Scissors => "가위"
    case Rock => "바위"
    case Paper => "보"
  }

  /**
   * `RCP.includes(userChoice)` followed by the move it names; a missing
   * argument (`undefined`) and every other token are rejected.
   */
  function ParseMove(choice: Option<string>): (m: Option<Move>)
    ensures m.Some? ==> choice == Some(Token(m.value))
    ensures m.None? ==> forall mv: Move :: choice != Some(Token(mv))
  {
    match choice
    case None => None
    case Some(t) =>
      if t == "가위" then Some(Scissors)
      else if t == "바위" then Some(Rock)
      else if t == "보" then Some(Paper)
      else None
  }

  /** `RCP[Math.floor(Math.random() * RCP.length)]` */
  function BotMove(r: Random.Draw): (m: Move)
    ensures Index(m) * r.den <= r.num * |Moves| < (Index(m) + 1) * r.den
  {
    Moves[Random.Scale(r, |Moves|)]
  }

  /** Each move can be the bot's. */
  lemma BotMoveOnto(m: Move)
    ensures exists r: Random.Draw :: BotMove(r) == m
  {
    var i := Index(m);
    Random.ScaleOnto(|Moves|, i);
    assert BotMove(Random.Fraction(i, |Moves|)) == m;
  }

  /** The outcome for the user: equal moves draw, and 가위 beats 보, 바위 beats 가위, 보 beats 바위. */
  function Resolve(user: Move, bot: Move): Outcome {
    if user == bot then Draw
    else if (user == Scissors && bot == Paper)
         || (user == Rock && bot == Scissors)
         || (user == Paper && bot == Rock) then Win
    else Loss
  }

  /** The position of a move in `Moves`. */
  function Index(m: Move): (i: nat)
    ensures i < |Moves| && Moves[i] == m
  {
    match m
    case Scissors => 0
    case Rock => 1
    case Paper => 2
  }

  /**
   * An independent statement of the precedence: in the cyclic order
   * 가위, 바위, 보 each move beats the one just before it.
   */
  function Margin(user: Move, bot: Move): (d: nat)
    ensures d < 3
  {
    (Index(user) - Index(bot) + 3) % 3
  }

  lemma ResolveCyclic(user: Move, bot: Move)
    ensures Resolve(user, bot) == Draw <==> Margin(user, bot) == 0
    ensures Resolve(user, bot) == Win <==> Margin(user, bot) == 1
    ensures Resolve(user, bot) == Loss <==> Margin(user, bot) == 2
  {}

  /** Swapping the players turns a win into a loss and keeps a draw. */
  lemma ResolveAntisymmetric(user: Move, bot: Move)
    ensures Resolve(user, bot) == Win <==> Resolve(bot, user) == Loss
    ensures Resolve(user, bot) == Draw <==> Resolve(bot, user) == Draw
  {}

  /** The bot move that gives the user outcome `o` against `user`. */
  function Answer(user: Move, o: Outcome): Move {
    var shift := match o case Draw => 0 case Win => 2 case Loss => 1;
    Moves[(Index(user) + shift) % 3]
  }

  /**
   * For every user move and every outcome exactly one bot move produces it,
   * so a uniformly drawn bot move makes each outcome equally likely.
   */
  lemma ExactlyOneAnswer(user: Move, o: Outcome, bot: Move)
    ensures Resolve(user, bot) == o <==> bot == Answer(user, o)
  {}

  /** How many of the given (user, bot) pairs end in `o`. */
  function CountOutcome(pairs: seq<(Move, Move)>, o: Outcome): (n: nat)
    ensures n <= |pairs|
  {
    if pairs == [] then 0
    else (if Resolve(pairs[0].0, pairs[0].1) == o then 1 else 0) + CountOutcome(pairs[1..], o)
  }

  /** The three pairs in which the user plays `user`. */
  function Row(user: Move): seq<(Move, Move)> {
    [(user, Scissors), (user, Rock), (user, Paper)]
  }

  /** The nine (user, bot) pairs, row by row. */
  function AllPairs(): (pairs: seq<(Move, Move)>)
    ensures |pairs| == 9
  {
    Row(Scissors) + Row(Rock) + Row(Paper)
  }

  lemma AllPairsComplete(user: Move, bot: Move)
    ensures (user, bot) in AllPairs()
  {}

  /** Of the nine pairs of moves three are wins, three losses and three draws. */
  lemma OutcomeCounts(o: Outcome)
    ensures CountOutcome(AllPairs(), o) == 3
  {}
}
