/**
 * Classifying one chat message: the `if ... else if` chain of the message
 * handler, read as a single parse step into a tagged command.
 */
module Commands {
  import opened Wrappers
  import opened Text

  const GameCommand := "!가위바위보"
  const StockCommand := "!주가"
  const UptimeCommand := "!업타임"
  const ViewersCommand := "!시청자수"
  const TitleCommand := "!방제"
  const HelpCommand := "!명령어"
  const FollowCommand := "!팔로우"

  /** The five commands recognised only by exact equality. */
  const ExactCommands: seq<string> := [UptimeCommand, ViewersCommand, TitleCommand, HelpCommand, FollowCommand]

  datatype Command =
    | PlayGame(choice: Option<string>)
    | StockLookup(name: Option<string>)
    | Uptime
    | Viewers
    | Title
    | Help
    | Follow
    | Ignore

  /**
   * The dispatch: a prefix test for the game, then a prefix test for the
   * stock lookup (both take `text.split(" ")[1]` as argument), then exact
   * matches; anything else is ignored.
   */
  function Classify(text: string): (c: Command)
    ensures c.PlayGame? <==> StartsWith(text, GameCommand)
    ensures c.PlayGame? ==> c.choice == SecondToken(text)
    ensures c.StockLookup? <==> StartsWith(text, StockCommand)
    ensures c.StockLookup? ==> c.name == SecondToken(text)
    ensures c.Uptime? <==> text == UptimeCommand
    ensures c.Viewers? <==> text == ViewersCommand
    ensures c.Title? <==> text == TitleCommand
    ensures c.Help? <==> text == HelpCommand
    ensures c.Follow? <==> text == FollowCommand
    ensures c.Ignore? <==> !StartsWith(text, GameCommand) && !StartsWith(text, StockCommand) && text !in ExactCommands
  {
    PrefixesDisjoint(text);
    if StartsWith(text, GameCommand) then PlayGame(SecondToken(text))
    else if StartsWith(text, StockCommand) then StockLookup(SecondToken(text))
    else if text == UptimeCommand then Uptime
    else if text == ViewersCommand then Viewers
    else if text == TitleCommand then Title
    else if text == HelpCommand then Help
    else if text == FollowCommand then Follow
    else Ignore
  }

  /**
   * No text passes two of the tests: the two prefixes differ in their second
   * character and none of the exact commands starts with either prefix, so
   * the order of the chain never decides between two handlers.
   */
  lemma PrefixesDisjoint(text: string)
    ensures !(StartsWith(text, GameCommand) && StartsWith(text, StockCommand))
    ensures StartsWith(text, GameCommand) || StartsWith(text, StockCommand) ==> text !in ExactCommands
  {
    if StartsWith(text, GameCommand) {
      assert text[1] == GameCommand[1];
    }
    if StartsWith(text, StockCommand) {
      assert text[1] == StockCommand[1];
    }
  }

  /** The game command takes the word after the first space as the move; later words are ignored. */
  lemma ClassifyGame(arg: string, more: string)
    requires ' ' !in arg
    ensures Classify(GameCommand + " " + arg) == PlayGame(Some(arg))
    ensures Classify(GameCommand + " " + arg + " " + more) == PlayGame(Some(arg))
  {
    SecondTokenOf(GameCommand, arg, more);
    assert StartsWith(GameCommand + " " + arg, GameCommand);
    assert StartsWith(GameCommand + " " + arg + " " + more, GameCommand);
  }

  /** Without a space after it (`!가위바위보`, `!가위바위보가위`) the game command has no move. */
  lemma ClassifyGameNoMove(suffix: string)
    requires ' ' !in suffix
    ensures Classify(GameCommand + suffix) == PlayGame(None)
  {
    SecondTokenAbsent(GameCommand + suffix);
    assert StartsWith(GameCommand + suffix, GameCommand);
  }

  /** The stock command takes the word after the first space as the name fragment. */
  lemma ClassifyStock(name: string, more: string)
    requires ' ' !in name
    ensures Classify(StockCommand + " " + name) == StockLookup(Some(name))
    ensures Classify(StockCommand + " " + name + " " + more) == StockLookup(Some(name))
  {
    SecondTokenOf(StockCommand, name, more);
    assert StartsWith(StockCommand + " " + name, StockCommand);
    assert StartsWith(StockCommand + " " + name + " " + more, StockCommand);
  }

  /** Exact commands do not tolerate extra text, and an advertised `!스펙` has no handler. */
  lemma ClassifyIgnoredExamples()
    ensures Classify("!업타임 ").Ignore?
    ensures Classify("업타임").Ignore?
    ensures Classify("!스펙").Ignore?
    ensures Classify("").Ignore?
  {}

  /** The command list the help reply advertises, in its order. */
  const Advertised: seq<string> := [GameCommand, StockCommand, UptimeCommand, "!스펙", TitleCommand, ViewersCommand]

  /** Every advertised command except `!스펙` reaches a handler; `!팔로우` and `!명령어` work but are not advertised. */
  lemma AdvertisedCommands(i: nat)
    requires i < |Advertised|
    ensures Classify(Advertised[i]).Ignore? <==> Advertised[i] == "!스펙"
  {}
}
