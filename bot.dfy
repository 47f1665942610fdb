/**
 * The chat handler: each message of a batch is classified and answered, the
 * game updates the `game_results` table, and a handler that throws ends the
 * batch. External answers (the user lookup, the random draw, the stock
 * service, the live detail and the clock) arrive as a `World` per message.
 */
module Bot {
  import opened Wrappers
  import Random
  import Clock
  import opened Text
  import opened Game
  import opened Stats
  import opened Commands

  /**
   * What `chat.getUserInfo(author.id)` resolves to. The follow time is
   * turned into elapsed milliseconds: `None` for an undefined or invalid
   * `followDate` (the `NaN` of `new Date(undefined)`), and a null one counts
   * from the epoch, as `new Date(null)` does.
   */
  datatype UserInfo = UserInfo(id: string, followElapsed: Option<nat>)

  /** The first item the stock-price service returns: closing, high and low price as it sends them. */
  datatype StockItem = StockItem(clpr: string, hipr: string, lopr: string)

  /** `live.getDetail`: milliseconds since `startOn`, `userCount.now` and `title`. */
  datatype LiveDetail = LiveDetail(elapsed: nat, viewers: int, title: string)

  /**
   * The outside world while one message is handled: whether the awaited
   * `getUserInfo` request rejects, the user it resolves to (`None` for a
   * null result), the bot's random draw, the stock lookup
   * (`None` when nothing matched or the request failed) and the live detail
   * (`None` when the request failed).
   */
  datatype World = World(lookupRejected: bool, user: Option<UserInfo>, botDraw: Random.Draw, stock: Option<StockItem>, live: Option<LiveDetail>)

  datatype Message = Message(authorId: string, text: string, world: World)

  /** The replies the bot sends, with the values it interpolates into them. */
  datatype Reply =
    | MoveInstruction
    | RoundResult(bot: Move, outcome: Outcome, tally: Record)
    | StockQuote(name: Option<string>, current: string, high: string, low: string)
    | StockNotFound(name: Option<string>)
    | UptimeReply(elapsed: Clock.Hms)
    | ViewerCount(viewers: int)
    | RoomTitle(title: string)
    | CommandList
    | FollowElapsed(days: Option<nat>)   // None is the "NaN" of an invalid follow date

  /** What handling one message does on the chat: nothing, one reply, or an exception. */
  datatype Effect = Silent | Send(reply: Reply) | Fault

  datatype Reaction = Reaction(rows: Table, effect: Effect)

  const GuestPrefix := "guest_"

  /** The platform id the user lookup resolves to; a null result or an empty id falls back to `guest_` and the author id. */
  function UserId(authorId: string, user: Option<UserInfo>): (id: string)
    ensures id != ""
    ensures user.Some? && user.value.id != "" ==> id == user.value.id
    ensures !(user.Some? && user.value.id != "") ==> StartsWith(id, GuestPrefix) && id[|GuestPrefix|..] == authorId
  {
    if user.Some? && user.value.id != "" then user.value.id else GuestPrefix + authorId
  }

  /** Unresolved authors with different platform ids keep separate rows. */
  lemma GuestIdsDistinct(a: string, b: string)
    requires a != b
    ensures UserId(a, None) != UserId(b, None)
  {}

  /**
   * `handleRCP`: an invalid move gets the instruction and leaves the table
   * alone; a valid one is recorded and answered with the bot's move, the
   * outcome and the user's row as it reads after the update.
   */
  function PlayRound(t: Table, userId: string, choice: Option<string>, draw: Random.Draw): (s: Reaction)
    ensures ParseMove(choice).None? ==> s == Reaction(t, Send(MoveInstruction))
    ensures ParseMove(choice).Some? ==>
      s.effect == Send(RoundResult(BotMove(draw), Resolve(ParseMove(choice).value, BotMove(draw)), Lookup(s.rows, userId)))
  {
    var bot := BotMove(draw);
    match ParseMove(choice)
    case None => Reaction(t, Send(MoveInstruction))
    case Some(move) =>
      var o := Resolve(move, bot);
      var rows := Upserted(t, userId, o);
      Reaction(rows, Send(RoundResult(bot, o, rows[userId])))
  }

  /**
   * A valid round creates the user's row at zero if absent and moves exactly
   * the counter of its outcome by one, so the reply's tally is the previous
   * record plus that one increment.
   */
  lemma PlayRoundRecords(t: Table, userId: string, choice: Option<string>, draw: Random.Draw)
    requires ParseMove(choice).Some?
    ensures PlayRound(t, userId, choice, draw).rows.Keys == t.Keys + {userId}
    ensures Lookup(PlayRound(t, userId, choice, draw).rows, userId)
         == Bumped(Lookup(t, userId), Resolve(ParseMove(choice).value, BotMove(draw)))
  {
    var o := Resolve(ParseMove(choice).value, BotMove(draw));
    var rows := Upserted(t, userId, o);
    assert PlayRound(t, userId, choice, draw).rows == rows;
    UpsertedBumps(t, userId, o);
    assert Lookup(rows, userId) == rows[userId];
  }

  /** A round never touches the row of another user. */
  lemma PlayRoundFrame(t: Table, userId: string, choice: Option<string>, draw: Random.Draw, other: string)
    requires other != userId
    ensures Lookup(PlayRound(t, userId, choice, draw).rows, other) == Lookup(t, other)
  {}

  /** The stock reply: the three prices of a found item, otherwise "not found". */
  function StockReply(name: Option<string>, item: Option<StockItem>): (r: Reply)
    ensures r.StockQuote? <==> item.Some?
    ensures r.StockNotFound? <==> item.None?
    ensures r.name == name
    ensures item.Some? ==> r.current == item.value.clpr && r.high == item.value.hipr && r.low == item.value.lopr
  {
    match item
    case Some(it) => StockQuote(name, it.clpr, it.hipr, it.lopr)
    case None => StockNotFound(name)
  }

  /** Days since following: `NaN` exactly when the follow date is undefined or invalid; a null one counts from the epoch. */
  function FollowReply(info: UserInfo): (r: Reply)
    ensures r.FollowElapsed?
    ensures r.days.None? <==> info.followElapsed.None?
    ensures r.days.Some? ==> r.days.value * Clock.MsPerDay <= info.followElapsed.value < (r.days.value + 1) * Clock.MsPerDay
  {
    match info.followElapsed
    case None => FollowElapsed(None)
    case Some(diff) => FollowElapsed(Some(Clock.FollowDays(diff)))
  }

  /**
   * The body of the `for (const msg of data)` loop for one message: the user
   * lookup is awaited before the text is looked at, so its rejection throws
   * whatever the text says.
   */
  function React(t: Table, m: Message): Reaction {
    var userId := UserId(m.authorId, m.world.user);
    if m.world.lookupRejected then Reaction(t, Fault)
    else match Classify(m.text)
    case PlayGame(choice) => PlayRound(t, userId, choice, m.world.botDraw)
    case StockLookup(name) => Reaction(t, Send(StockReply(name, m.world.stock)))
    case Uptime =>
      if m.world.live.None? then Reaction(t, Fault)
      else Reaction(t, Send(UptimeReply(Clock.Uptime(m.world.live.value.elapsed))))
    case Viewers =>
      if m.world.live.None? then Reaction(t, Fault)
      else Reaction(t, Send(ViewerCount(m.world.live.value.viewers)))
    case Title =>
      if m.world.live.None? then Reaction(t, Fault)
      else Reaction(t, Send(RoomTitle(m.world.live.value.title)))
    case Help => Reaction(t, Send(CommandList))
    case Follow =>
      if m.world.user.None? then Reaction(t, Fault)
      else Reaction(t, Send(FollowReply(m.world.user.value)))
    case Ignore => Reaction(t, Silent)
  }

  /**
   * Only the game writes to the table, only an unrecognised text is silent
   * (no reply and no exception), an invalid move gets the instruction, and
   * only a failed external lookup throws.
   */
  lemma ReactCases(t: Table, m: Message)
    ensures !Classify(m.text).PlayGame? || m.world.lookupRejected ==> React(t, m).rows == t
    ensures React(t, m).effect.Silent? <==> Classify(m.text).Ignore? && !m.world.lookupRejected
    ensures React(t, m).effect.Fault? <==>
      m.world.lookupRejected
      || (Classify(m.text) in {Uptime, Viewers, Title} && m.world.live.None?)
      || (Classify(m.text) == Follow && m.world.user.None?)
    ensures Classify(m.text).PlayGame? && ParseMove(Classify(m.text).choice).None? && !m.world.lookupRejected ==>
      React(t, m) == Reaction(t, Send(MoveInstruction))
  {}

  /** The replies an effect puts on the chat. */
  function Sent(e: Effect): (r: seq<Reply>)
    ensures |r| <= 1
  {
    if e.Send? then [e.reply] else []
  }

  datatype BatchResult = BatchResult(rows: Table, replies: seq<Reply>, stopped: bool)

  /**
   * A batch handled in order; once a handler throws, the rest of the batch is
   * skipped (the exception leaves the `for` loop).
   */
  function ReactAll(t: Table, batch: seq<Message>): (b: BatchResult)
    ensures |b.replies| <= |batch|
    decreases |batch|
  {
    if batch == [] then BatchResult(t, [], false)
    else
      var before := ReactAll(t, batch[..|batch| - 1]);
      if before.stopped then before
      else
        var s := React(before.rows, batch[|batch| - 1]);
        BatchResult(s.rows, before.replies + Sent(s.effect), s.effect.Fault?)
  }

  /** After a throw, later messages change nothing. */
  lemma {:induction false} ReactAllStopped(t: Table, batch: seq<Message>, i: nat)
    requires i <= |batch|
    requires ReactAll(t, batch[..i]).stopped
    ensures ReactAll(t, batch) == ReactAll(t, batch[..i])
    decreases |batch| - i
  {
    if i < |batch| {
      assert batch[..|batch| - 1][..i] == batch[..i];
      ReactAllStopped(t, batch[..|batch| - 1], i);
    } else {
      assert batch[..i] == batch;
    }
  }

  /** A batch of texts that are no command, whose user lookups resolve, sends nothing and changes nothing. */
  lemma {:induction false} IgnoredBatch(t: Table, batch: seq<Message>)
    requires forall k :: 0 <= k < |batch| ==> Classify(batch[k].text).Ignore? && !batch[k].world.lookupRejected
    ensures ReactAll(t, batch) == BatchResult(t, [], false)
    decreases |batch|
  {
    if batch != [] {
      IgnoredBatch(t, batch[..|batch| - 1]);
    }
  }

  /** Is `m` a valid game round by the user `u`? */
  predicate ValidRoundBy(m: Message, u: string) {
    !m.world.lookupRejected
    && UserId(m.authorId, m.world.user) == u
    && Classify(m.text).PlayGame?
    && ParseMove(Classify(m.text).choice).Some?
  }

  /** How many messages of the batch are valid game rounds by `u`. */
  function RoundsBy(batch: seq<Message>, u: string): (n: nat)
    ensures n <= |batch|
    decreases |batch|
  {
    if batch == [] then 0
    else RoundsBy(batch[..|batch| - 1], u) + (if ValidRoundBy(batch[|batch| - 1], u) then 1 else 0)
  }

  /** Handling one message raises `u`'s games played by one exactly for a valid round by `u`. */
  lemma ReactTotal(t: Table, m: Message, u: string)
    ensures Total(Lookup(React(t, m).rows, u)) == Total(Lookup(t, u)) + (if ValidRoundBy(m, u) then 1 else 0)
  {
    var id := UserId(m.authorId, m.world.user);
    if !m.world.lookupRejected && Classify(m.text).PlayGame? && id != u {
      PlayRoundFrame(t, id, Classify(m.text).choice, m.world.botDraw, u);
    }
  }

  /**
   * Over a batch in which no handler throws, each user's wins + losses +
   * draws grows by exactly the number of valid rounds that user played.
   */
  lemma {:induction false} ReactAllTotal(t: Table, batch: seq<Message>, u: string)
    requires !ReactAll(t, batch).stopped
    ensures Total(Lookup(ReactAll(t, batch).rows, u)) == Total(Lookup(t, u)) + RoundsBy(batch, u)
    decreases |batch|
  {
    if batch != [] {
      var init := batch[..|batch| - 1];
      ReactAllTotal(t, init, u);
      ReactTotal(ReactAll(t, init).rows, batch[|batch| - 1], u);
    }
  }

  /** One message never removes a row or lowers a counter. */
  lemma ReactGrows(t: Table, m: Message)
    ensures Grown(t, React(t, m).rows)
  {}

  /** Counters are never reset or decremented across a batch. */
  lemma {:induction false} ReactAllGrows(t: Table, batch: seq<Message>)
    ensures Grown(t, ReactAll(t, batch).rows)
    decreases |batch|
  {
    if batch != [] {
      var before := ReactAll(t, batch[..|batch| - 1]);
      ReactAllGrows(t, batch[..|batch| - 1]);
      if !before.stopped {
        ReactGrows(before.rows, batch[|batch| - 1]);
        GrownTransitive(t, before.rows, React(before.rows, batch[|batch| - 1]).rows);
      }
    }
  }

  /** The outbound chat: every reply sent so far, in order. */
  class Chat {
    var sent: seq<Reply>

    constructor ()
      ensures sent == []
    {
      sent := [];
    }

    /** `chat.send(text)` */
    method Send(r: Reply)
      modifies this
      ensures sent == old(sent) + [r]
    {
      sent := sent + [r];
    }
  }

  /** `handleRCP(chat, userId, userChoice)` against the store and the chat. */
  method HandleRcp(chat: Chat, store: StatsStore, userId: string, choice: Option<string>, draw: Random.Draw)
    modifies chat, store
    ensures store.rows == PlayRound(old(store.rows), userId, choice, draw).rows
    ensures chat.sent == old(chat.sent) + Sent(PlayRound(old(store.rows), userId, choice, draw).effect)
  {
    var bot := BotMove(draw);
    var move := ParseMove(choice);
    if move.None? {
      chat.Send(MoveInstruction);
      return;
    }
    var outcome := Resolve(move.value, bot);
    store.Upsert(userId, outcome);
    var row := store.Select(userId);
    chat.Send(RoundResult(bot, outcome, row.value));
  }

  /** One iteration of the message loop; `fault` says that the handler threw. */
  method HandleMessage(chat: Chat, store: StatsStore, m: Message) returns (fault: bool)
    modifies chat, store
    ensures store.rows == React(old(store.rows), m).rows
    ensures chat.sent == old(chat.sent) + Sent(React(old(store.rows), m).effect)
    ensures fault == React(old(store.rows), m).effect.Fault?
  {
    if m.world.lookupRejected {
      return true;
    }
    var userId := UserId(m.authorId, m.world.user);
    fault := false;
    match Classify(m.text)
    case PlayGame(choice) =>
      HandleRcp(chat, store, userId, choice, m.world.botDraw);
    case StockLookup(name) =>
      chat.Send(StockReply(name, m.world.stock));
    case Uptime =>
      if m.world.live.None? {
        fault := true;
      } else {
        chat.Send(UptimeReply(Clock.Uptime(m.world.live.value.elapsed)));
      }
    case Viewers =>
      if m.world.live.None? {
        fault := true;
      } else {
        chat.Send(ViewerCount(m.world.live.value.viewers));
      }
    case Title =>
      if m.world.live.None? {
        fault := true;
      } else {
        chat.Send(RoomTitle(m.world.live.value.title));
      }
    case Help =>
      chat.Send(CommandList);
    case Follow =>
      if m.world.user.None? {
        fault := true;
      } else {
        chat.Send(FollowReply(m.world.user.value));
      }
    case Ignore =>
  }

  /** The `chat.onMessage` callback: the messages of one batch, in order, until one throws. */
  method OnMessage(chat: Chat, store: StatsStore, batch: seq<Message>)
    modifies chat, store
    ensures store.rows == ReactAll(old(store.rows), batch).rows
    ensures chat.sent == old(chat.sent) + ReactAll(old(store.rows), batch).replies
    ensures Grown(old(store.rows), store.rows)
  {
    var i := 0;
    var stopped := false;
    while i < |batch| && !stopped
      invariant 0 <= i <= |batch|
      invariant store.rows == ReactAll(old(store.rows), batch[..i]).rows
      invariant chat.sent == old(chat.sent) + ReactAll(old(store.rows), batch[..i]).replies
      invariant stopped == ReactAll(old(store.rows), batch[..i]).stopped
    {
      assert batch[..i + 1][..i] == batch[..i];
      stopped := HandleMessage(chat, store, batch[i]);
      i := i + 1;
    }
    if stopped {
      ReactAllStopped(old(store.rows), batch, i);
    } else {
      assert batch[..i] == batch;
    }
    ReactAllGrows(old(store.rows), batch);
  }
}
