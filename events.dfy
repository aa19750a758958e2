/**
 * Incoming Slack events: the guards of `handleEvent`, the decision chain of the `message`
 * handler, the `appMention` command dispatch, and the undo ledger (`usersList`), which
 * remembers for each voter the user of their last counted `++`.
 */
module Events {
  import opened Wrappers
  import opened Text
  import opened Queries
  import opened Helpers
  import opened Operations
  import opened Messages
  import opened Points

  const NOTHING_TO_UNDO_SUFFIX: string := "> there is nothing to undo!"
  const EVENT_DATA_MISSING: string := "Event data missing"
  const UNSUPPORTED_SUBTYPE: string := "Unsupported event subtype: "
  const EVENT_TEXT_MISSING: string := "Event text missing"
  const INVALID_EVENT: string := "Invalid event received: "

  /** The minutes of the undo window, `Math.floor(UNDO_TIME_LIMIT / 60)`. */
  const UNDO_MINUTES: nat := UNDO_TIME_LIMIT / 60

  /** The reply to an undo that found no vote inside the window. */
  const UNDO_EXPIRED: string := "You can undo only for duration of " + NatToString(UNDO_MINUTES) + " minutes after up voting!"

  /** The commands an app mention may carry, in the order the handler table lists them. */
  const APP_COMMANDS: seq<string> := ["leaderboard", "help", "thx", "thanks", "thankyou"]

  /** An event as Slack delivers it; absent fields are `None`. */
  datatype Event = Event(kind: Option<string>, subtype: Option<string>, text: Option<string>, user: string,
                         channel: string)

  /** A message only its recipient sees (`sendEphemeral`). */
  datatype Ephemeral = Ephemeral(message: string, channel: string, user: string)

  /** What the Slack side provides: whether a user is a bot (from the cached user list),
      user and channel names, and lodash's `camelCase`. */
  datatype Slack = Slack(isBot: string -> bool, userName: string -> string, channelName: string -> string,
                         camelCase: string -> string)

  /** The two `Math.random` draws a reply uses. */
  datatype Draws = Draws(setDraw: real, indexDraw: real)

  predicate ValidDraws(d: Draws) {
    0.0 <= d.setDraw < 1.0 && 0.0 <= d.indexDraw < 1.0
  }

  /** The reply text `getRandomMessage` builds for a known operation name. */
  function ReplyFor(operation: string, item: string, score: int, d: Draws): string
    requires operation == PLUS || operation == MINUS || operation == SELF
    requires ValidDraws(d)
  {
    TablesWellFormed();
    Reply(FormatFor(operation).value, item, score, DrawnMessage(MessagesFor(operation).value, d.setDraw, d.indexDraw))
  }

  /** `getRandomMessage` for an operation it knows, which always succeeds. */
  method Answer(operation: string, item: string, score: int, d: Draws) returns (message: string)
    requires operation == PLUS || operation == MINUS || operation == SELF
    requires ValidDraws(d)
    ensures message == ReplyFor(operation, item, score, d)
  {
    var r := GetRandomMessage(operation, item, score, d.setDraw, d.indexDraw);
    message := r.value;
  }

  // ---------------------------------------------------------------------------
  // The undo ledger

  /** `{voter, user}`: the voter's last counted `++` went to `user`. */
  datatype LedgerEntry = LedgerEntry(voter: string, user: string)

  /** Every voter has at most one entry. */
  predicate OnePerVoter(list: seq<LedgerEntry>) {
    forall i, j :: 0 <= i < j < |list| ==> list[i].voter != list[j].voter
  }

  function IsVoter(voter: string): LedgerEntry -> bool {
    (e: LedgerEntry) => e.voter == voter
  }

  /** The entries a voter has. */
  function EntriesOf(list: seq<LedgerEntry>, voter: string): seq<LedgerEntry> {
    Select(list, IsVoter(voter))
  }

  /** `usersList.find(...)` then `indexOf`: the position of the voter's first entry. */
  function FindVoter(list: seq<LedgerEntry>, voter: string): (r: Option<nat>)
    ensures r.None? <==> forall k :: 0 <= k < |list| ==> list[k].voter != voter
    ensures r.Some? ==> r.value < |list| && list[r.value].voter == voter
                        && forall k :: 0 <= k < r.value ==> list[k].voter != voter
  {
    if list == [] then None
    else if list[0].voter == voter then Some(0)
    else match FindVoter(list[1..], voter)
         case None => None
         case Some(i) => Some(i + 1)
  }

  /** `usersList.splice(location, 1)` for the voter's entry, if there is one. */
  function WithoutVoter(list: seq<LedgerEntry>, voter: string): seq<LedgerEntry> {
    match FindVoter(list, voter)
    case None => list
    case Some(i) => list[..i] + list[i + 1..]
  }

  /** The ledger after a counted `++`: the voter's old entry replaced by a new one at the end. */
  function Record(list: seq<LedgerEntry>, voter: string, user: string): seq<LedgerEntry> {
    WithoutVoter(list, voter) + [LedgerEntry(voter, user)]
  }

  /** Cutting out one entry keeps one entry per voter. */
  lemma SpliceKeepsOnePerVoter(list: seq<LedgerEntry>, i: int)
    requires OnePerVoter(list) && 0 <= i < |list|
    ensures OnePerVoter(list[..i] + list[i + 1..])
  {
    var r := list[..i] + list[i + 1..];
    forall p, q | 0 <= p < q < |r| ensures r[p].voter != r[q].voter {
      var p' := if p < i then p else p + 1;
      var q' := if q < i then q else q + 1;
      assert r[p] == list[p'] && r[q] == list[q'];
    }
  }

  /** Cutting out entry `i` removes exactly that entry from its voter's entries. */
  lemma SpliceEntries(list: seq<LedgerEntry>, i: int, v: string)
    requires 0 <= i < |list|
    ensures EntriesOf(list, v) == EntriesOf(list[..i], v) + EntriesOf([list[i]], v) + EntriesOf(list[i + 1..], v)
    ensures EntriesOf(list[..i] + list[i + 1..], v) == EntriesOf(list[..i], v) + EntriesOf(list[i + 1..], v)
  {
    var a, b := list[..i], list[i + 1..];
    assert list == a + [list[i]] + b;
    SelectConcat(a + [list[i]], b, IsVoter(v));
    SelectConcat(a, [list[i]], IsVoter(v));
    SelectConcat(a, b, IsVoter(v));
  }

  /** A voter with no entry in a ledger has no entries there. */
  lemma AbsentNoEntries(list: seq<LedgerEntry>, v: string)
    requires forall k :: 0 <= k < |list| ==> list[k].voter != v
    ensures EntriesOf(list, v) == []
  {
    SelectNone(list, IsVoter(v));
  }

  /** Removing a voter leaves them no entry and every other voter's entries as they were. */
  lemma WithoutVoterMeans(list: seq<LedgerEntry>, voter: string)
    requires OnePerVoter(list)
    ensures OnePerVoter(WithoutVoter(list, voter))
    ensures EntriesOf(WithoutVoter(list, voter), voter) == []
    ensures forall v :: v != voter ==> EntriesOf(WithoutVoter(list, voter), v) == EntriesOf(list, v)
  {
    match FindVoter(list, voter)
    case None =>
      AbsentNoEntries(list, voter);
    case Some(i) =>
      SpliceKeepsOnePerVoter(list, i);
      SpliceKeepsOthers(list, i);
      SpliceRemovesVoter(list, i);
  }

  /** Cutting out entry `i` leaves the entries of every other voter as they were. */
  lemma SpliceKeepsOthers(list: seq<LedgerEntry>, i: int)
    requires 0 <= i < |list|
    ensures forall v :: v != list[i].voter ==> EntriesOf(list[..i] + list[i + 1..], v) == EntriesOf(list, v)
  {
    forall v | v != list[i].voter ensures EntriesOf(list[..i] + list[i + 1..], v) == EntriesOf(list, v) {
      SpliceEntries(list, i, v);
      AbsentNoEntries([list[i]], v);
    }
  }

  /** With one entry per voter, cutting out entry `i` leaves its voter no entry. */
  lemma SpliceRemovesVoter(list: seq<LedgerEntry>, i: int)
    requires OnePerVoter(list) && 0 <= i < |list|
    ensures EntriesOf(list[..i] + list[i + 1..], list[i].voter) == []
  {
    var voter, a, b := list[i].voter, list[..i], list[i + 1..];
    SpliceEntries(list, i, voter);
    assert forall k :: 0 <= k < |a| ==> a[k].voter != voter by {
      forall k | 0 <= k < |a| ensures a[k].voter != voter {
        assert a[k] == list[k];
      }
    }
    AbsentNoEntries(a, voter);
    assert forall k :: 0 <= k < |b| ==> b[k].voter != voter by {
      forall k | 0 <= k < |b| ensures b[k].voter != voter {
        assert b[k] == list[i + 1 + k];
      }
    }
    AbsentNoEntries(b, voter);
  }

  /** A counted `++` leaves the voter exactly one entry, naming its recipient, and every
      other voter's entries as they were. */
  lemma RecordMeans(list: seq<LedgerEntry>, voter: string, user: string)
    requires OnePerVoter(list)
    ensures OnePerVoter(Record(list, voter, user))
    ensures EntriesOf(Record(list, voter, user), voter) == [LedgerEntry(voter, user)]
    ensures forall v :: v != voter ==> EntriesOf(Record(list, voter, user), v) == EntriesOf(list, v)
  {
    var rest := WithoutVoter(list, voter);
    var e := LedgerEntry(voter, user);
    WithoutVoterMeans(list, voter);
    forall v ensures EntriesOf(rest + [e], v) == EntriesOf(rest, v) + EntriesOf([e], v) {
      SelectConcat(rest, [e], IsVoter(v));
    }
    forall v | v != voter ensures EntriesOf([e], v) == [] {
      SelectNone([e], IsVoter(v));
    }
    assert EntriesOf([e], voter) == [e] by {
      SelectAll([e], IsVoter(voter));
    }
    assert forall k :: 0 <= k < |rest| ==> rest[k].voter != voter by {
      forall k | 0 <= k < |rest| ensures rest[k].voter != voter {
        if rest[k].voter == voter {
          SelectMembers(rest, IsVoter(voter), rest[k]);
        }
      }
    }
  }

  // ---------------------------------------------------------------------------
  // Routing

  /** The function-valued properties every object literal inherits from `Object.prototype`
      whose names `camelCase` can produce: `handlers[name] instanceof Function` holds for
      them too, so such an event is handed to the inherited function, with no warning. */
  const INHERITED_FUNCTIONS: set<string> := {"constructor", "hasOwnProperty", "isPrototypeOf",
                                             "propertyIsEnumerable", "toLocaleString", "toString",
                                             "valueOf"}

  /** Where `handleEvent` sends an event. */
  datatype Route = Dropped(warning: string) | ToMessage | ToAppMention | ToInherited(name: string)

  /** The guards of `handleEvent`, in order: no type, any subtype, missing or blank text,
      and finally a type whose camel-cased name has no handler. */
  function RouteEvent(event: Event, camelCase: string -> string): (r: Route)
    ensures event.kind.None? ==> r == Dropped(EVENT_DATA_MISSING)
    ensures event.kind.Some? && event.subtype.Some? ==> r == Dropped(UNSUPPORTED_SUBTYPE + event.subtype.value)
    ensures event.kind.Some? && event.subtype.None? && (event.text.None? || Trim(event.text.value) == "") ==>
              r == Dropped(EVENT_TEXT_MISSING)
    ensures !r.Dropped? <==>
              (event.kind.Some? && event.subtype.None? && event.text.Some? && Trim(event.text.value) != ""
               && (camelCase(event.kind.value) in INHERITED_FUNCTIONS
                   || camelCase(event.kind.value) == "message" || camelCase(event.kind.value) == "appMention"))
    ensures r.Dropped? && event.kind.Some? && event.subtype.None? && event.text.Some? && Trim(event.text.value) != "" ==>
              r == Dropped(INVALID_EVENT + event.kind.value)
    ensures r == ToMessage ==> camelCase(event.kind.value) == "message"
    ensures r == ToAppMention ==> camelCase(event.kind.value) == "appMention"
    ensures r.ToInherited? ==> r.name == camelCase(event.kind.value) && r.name in INHERITED_FUNCTIONS
  {
    if event.kind.None? then Dropped(EVENT_DATA_MISSING)
    else if event.subtype.Some? then Dropped(UNSUPPORTED_SUBTYPE + event.subtype.value)
    else if event.text.None? || Trim(event.text.value) == "" then Dropped(EVENT_TEXT_MISSING)
    else
      var name := camelCase(event.kind.value);
      if name == "message" then ToMessage
      else if name == "appMention" then ToAppMention
      else if name in INHERITED_FUNCTIONS then ToInherited(name)
      else Dropped(INVALID_EVENT + event.kind.value)
  }

  /** What the `message` handler does with a message. */
  datatype MessageAction = Ignore | UndoVote | SelfPlus | Vote(item: string, operation: string, description: Option<string>)

  /** The decision chain of the `message` handler: no directive is ignored; `undo` aimed at
      a bot undoes; anything else aimed at a bot is ignored; a `++` to oneself is refused;
      the rest is a vote. */
  function RouteMessage(text: string, sender: string, isBot: string -> bool): (r: MessageAction)
    ensures ExtractPlusMinusEventData(text).None? ==> r == Ignore
    ensures r == UndoVote <==> ExtractPlusMinusEventData(text).Some?
                               && isBot(ExtractPlusMinusEventData(text).value.item)
                               && ExtractPlusMinusEventData(text).value.operation == "undo"
    ensures r == SelfPlus <==> ExtractPlusMinusEventData(text).Some?
                               && !isBot(ExtractPlusMinusEventData(text).value.item)
                               && ExtractPlusMinusEventData(text).value.item == sender
                               && ExtractPlusMinusEventData(text).value.operation == "+"
    ensures r.Vote? ==> Some(PlusMinus(r.item, r.operation, r.description)) == ExtractPlusMinusEventData(text)
                        && !isBot(r.item) && !(r.item == sender && r.operation == "+")
    ensures ExtractPlusMinusEventData(text).Some?
            && !isBot(ExtractPlusMinusEventData(text).value.item)
            && !(ExtractPlusMinusEventData(text).value.item == sender
                 && ExtractPlusMinusEventData(text).value.operation == "+") ==>
              var data := ExtractPlusMinusEventData(text).value;
              r == Vote(data.item, data.operation, data.description)
  {
    match ExtractPlusMinusEventData(text)
    case None => Ignore
    case Some(data) =>
      var userIsBot := isBot(data.item);
      if userIsBot && data.operation == "undo" then UndoVote
      else if data.item == "" || data.operation == "" || userIsBot then Ignore
      else if data.item == sender && data.operation == "+" then SelfPlus
      else Vote(data.item, data.operation, data.description)
  }

  /** A linked `++` for a user is ignored when the user is a bot, refused when the sender
      votes for themself, and otherwise a `+` vote for that user. */
  lemma VoteRoutes(item: string, sender: string, isBot: string -> bool)
    requires |item| > 0 && AllAlnum(item) && IsUser(item)
    ensures RouteMessage(MaybeLinkItem(item) + "++", sender, isBot)
         == if isBot(item) then Ignore else if item == sender then SelfPlus else Vote(item, "+", None)
  {
    LinkedUserVote(item);
  }

  /** `<@bot> undo` addressed to a bot routes to the undo action, whoever the sender is. */
  lemma UndoRoutes(bot: string, sender: string, isBot: string -> bool)
    requires |bot| > 0 && AllAlnum(bot) && IsUser(bot) && isBot(bot)
    ensures RouteMessage("<@" + bot + "> undo", sender, isBot) == UndoVote
  {
    var link := "<@" + bot + ">";
    assert "<@" + bot + "> undo" == link + " undo";
    assert "" + "<@" + bot + ">" + " " + "undo" + "" + "" == link + " undo" by {
      assert "" + "<@" == "<@";
      assert link + " " + "undo" == link + " undo";
      assert link + " undo" + "" + "" == link + " undo";
    }
    assert AllWhitespace(" ") by { assert IsWhitespace(" "[0]); }
    ComposedDirective("", bot, ">", " ", "undo", "", "");
  }

  /** The handler an app-mention command is dispatched to. */
  datatype Command = ShowLeaderboard | SendHelp | SayThankyou

  function CommandHandler(command: string): Option<Command> {
    if command == "leaderboard" then Some(ShowLeaderboard)
    else if command == "help" then Some(SendHelp)
    else if command == "thx" || command == "thanks" || command == "thankyou" then Some(SayThankyou)
    else None
  }

  /** Every command is non-empty and has a handler. */
  lemma AppCommandsHandled()
    ensures forall k :: 0 <= k < |APP_COMMANDS| ==> APP_COMMANDS[k] != "" && CommandHandler(APP_COMMANDS[k]).Some?
  {
  }

  /** `appMention`: the handler of the command that occurs first in the text; with none it
      returns `false` (`None`), so the default reply after `if ('++')` is never sent. */
  method AppMention(text: string) returns (r: Option<Command>)
    requires |text| <= MAX_SAFE_INTEGER
    ensures (forall j :: 0 <= j < |APP_COMMANDS| ==> IndexOf(text, APP_COMMANDS[j]) == -1) <==> r.None?
    ensures forall k :: IsFirstCommand(text, APP_COMMANDS, k) ==> r == CommandHandler(APP_COMMANDS[k])
  {
    var appCommand := ExtractCommand(text, APP_COMMANDS);
    AppCommandsHandled();
    if appCommand.Some? {
      return CommandHandler(appCommand.value);
    }
    return None;
  }

  // ---------------------------------------------------------------------------
  // The bot's state: the ledger and the store

  /** The ledger and the three tables at one moment. */
  datatype State = State(list: seq<LedgerEntry>, users: seq<User>, channels: seq<Channel>, scores: seq<Score>,
                         nextId: nat)

  /** The tables once a vote of `voter` for `item` in `channel` is stored: both users and the
      channel exist, added under their Slack names when they were missing, and the vote is
      the one new row. */
  predicate VoteStored(item: string, channel: string, voter: string, description: Option<string>, slack: Slack,
                       now: int, s: State, s': State)
  {
    s'.users == WithUser(WithUser(s.users, item, slack.userName(item)), voter, slack.userName(voter))
    && s'.channels == WithChannel(s.channels, channel, slack.channelName(channel))
    && s'.scores == s.scores + [Score(s.nextId, now, item, voter, channel, description)]
    && s'.nextId == s.nextId + 1
  }

  /** What `handlePlusMinus` leaves behind. A `+` within the daily limit is stored, replaces
      the voter's ledger entry and is answered with the recipient's new count; a `+` over the
      limit is answered with the limit message and changes nothing; any other operation
      changes nothing and gets no answer. */
  predicate PlusMinusDone(item: string, operation: string, channel: string, voter: string,
                          description: Option<string>, slack: Slack, now: int, d: Draws, s: State, s': State,
                          reply: Option<Ephemeral>)
    requires ValidDraws(d)
  {
    var check := GetDailyUserScore(s.scores, voter, USER_LIMIT_VOTING_MAX, Day(now));
    if operation == "+" && check.operation then
      VoteStored(item, channel, voter, description, slack, now, s, s')
      && s'.list == Record(s.list, voter, item)
      && reply == Some(Ephemeral(ReplyFor(PLUS, item, UserScore(s'.scores, item, channel), d), channel, voter))
    else
      s' == s && reply == if operation == "+" then Some(Ephemeral(DAILY_LIMIT_MESSAGE, channel, voter)) else None
  }

  /** What `undoPlus` leaves behind: the voter's ledger entry is gone and the user and channel
      tables are untouched. Without an entry it says there is nothing to undo; with one it
      removes the voter's newest vote in the channel inside the window and names the
      recipient's new count, or says the window has passed. */
  predicate UndoDone(user: string, channel: string, now: int, d: Draws, s: State, s': State, reply: Ephemeral)
    requires ValidDraws(d)
  {
    reply.channel == channel && reply.user == user
    && s'.list == WithoutVoter(s.list, user)
    && s'.users == s.users && s'.channels == s.channels && s'.nextId == s.nextId
    && (FindVoter(s.list, user).None? ==>
          reply.message == "<@" + user + NOTHING_TO_UNDO_SUFFIX && s'.scores == s.scores)
    && (FindVoter(s.list, user).Some? ==>
          var target := s.list[FindVoter(s.list, user).value].user;
          var last := Last(s.scores, user, channel, now - UNDO_TIME_LIMIT);
          (last.None? ==> reply.message == UNDO_EXPIRED && s'.scores == s.scores)
          && (last.Some? ==>
                reply.message == ReplyFor(MINUS, target, UserScore(s'.scores, target, channel), d)
                && s'.scores == RemoveId(s.scores, last.value.id)))
  }

  /** What the `message` handler leaves behind, for each action the text routes to. */
  predicate MessageDone(text: string, sender: string, channel: string, slack: Slack, now: int, d: Draws,
                        s: State, s': State, reply: Option<Ephemeral>)
    requires ValidDraws(d)
  {
    match RouteMessage(text, sender, slack.isBot)
    case Ignore => reply.None? && s' == s
    case SelfPlus => reply == Some(Ephemeral(ReplyFor(SELF, sender, 0, d), channel, sender)) && s' == s
    case UndoVote => reply.Some? && UndoDone(sender, channel, now, d, s, s', reply.value)
    case Vote(item, operation, description) =>
      PlusMinusDone(item, operation, channel, sender, description, slack, now, d, s, s', reply)
  }

  class Bot {
    var usersList: seq<LedgerEntry>
    const store: Store

    ghost predicate Valid()
      reads this, store
    {
      store.Valid() && OnePerVoter(usersList)
    }

    /** The ledger and the tables as they stand. */
    ghost function Snapshot(): State
      reads this, store
    {
      State(usersList, store.users, store.channels, store.scores, store.nextId)
    }

    constructor (store: Store)
      requires store.Valid()
      ensures Valid() && usersList == [] && this.store == store
    {
      this.store := store;
      usersList := [];
    }

    /** The store half of `processUserData`: makes sure both users and the channel exist,
        then records the vote and returns the recipient's new count in the channel. */
    method StoreVote(item: string, channel: string, userVoting: string, description: Option<string>,
                     slack: Slack, now: int) returns (score: nat)
      requires store.Valid()
      modifies store
      ensures store.Valid()
      ensures VoteStored(item, channel, userVoting, description, slack, now, old(Snapshot()), Snapshot())
      ensures score == UserScore(store.scores, item, channel) == UserScore(old(store.scores), item, channel) + 1
    {
      var dbUserTo := store.CheckUser(item, slack.userName(item));
      var dbUserFrom := store.CheckUser(userVoting, slack.userName(userVoting));
      var checkChannelled := store.CheckChannel(channel, slack.channelName(channel));
      score := store.UpdateScore(dbUserTo, dbUserFrom, checkChannelled, description, now);
    }

    /** `processUserData`: records the vote, replaces the voter's ledger entry, and replies
        with the recipient's new count. */
    method ProcessUserData(item: string, operation: string, channel: string, userVoting: string,
                           description: Option<string>, slack: Slack, now: int, d: Draws)
      returns (message: Result<string, string>)
      requires Valid() && ValidDraws(d)
      modifies this, store
      ensures Valid()
      ensures VoteStored(item, channel, userVoting, description, slack, now, old(Snapshot()), Snapshot())
      ensures usersList == Record(old(usersList), userVoting, item)
      ensures message.Err? <==> operation != "+" && operation != "-"
      ensures message.Ok? ==> message.value == ReplyFor(GetOperationName(operation), item,
                                                         UserScore(store.scores, item, channel), d)
    {
      var score := StoreVote(item, channel, userVoting, description, slack, now);
      var operationName := GetOperationName(operation);
      RecordMeans(usersList, userVoting, item);
      usersList := Record(usersList, userVoting, item);
      message := GetRandomMessage(operationName, item, score, d.setDraw, d.indexDraw);
    }

    /** `handlePlusMinus`: a `-` does nothing; a `+` within the daily limit is counted and
        answered with the new score, over the limit it is answered with the limit message
        and changes nothing; any other operation does nothing. */
    method HandlePlusMinus(item: string, operation: string, channel: string, userVoting: string,
                           description: Option<string>, slack: Slack, now: int, d: Draws)
      returns (reply: Option<Ephemeral>)
      requires Valid() && ValidDraws(d)
      modifies this, store
      ensures Valid()
      ensures PlusMinusDone(item, operation, channel, userVoting, description, slack, now, d,
                            old(Snapshot()), Snapshot(), reply)
    {
      if operation == "-" {
        return None;
      } else if operation == "+" {
        var userLimit := GetDailyUserScore(store.scores, userVoting, USER_LIMIT_VOTING_MAX, Day(now));
        if userLimit.operation {
          var message := ProcessUserData(item, operation, channel, userVoting, description, slack, now, d);
          return Some(Ephemeral(message.value, channel, userVoting));
        } else {
          return Some(Ephemeral(userLimit.message.value, channel, userVoting));
        }
      }
      return None;
    }

    /** `undoPlus`: with no ledger entry for the user, says there is nothing to undo;
        otherwise removes the entry first, then undoes the user's newest vote in the channel
        inside the window, if there is one. */
    method UndoPlus(user: string, channel: string, now: int, d: Draws) returns (reply: Ephemeral)
      requires Valid() && ValidDraws(d)
      modifies this, store
      ensures Valid()
      ensures UndoDone(user, channel, now, d, old(Snapshot()), Snapshot(), reply)
      ensures FindVoter(usersList, user).None?
    {
      var findVoter := FindVoter(usersList, user);
      WithoutVoterMeans(usersList, user);
      if findVoter.None? {
        return Ephemeral("<@" + user + NOTHING_TO_UNDO_SUFFIX, channel, user);
      }
      var entry := usersList[findVoter.value];
      usersList := WithoutVoter(usersList, user);
      NoEntryNotFound(usersList, user);
      var message := UndoVoteOf(user, entry.user, channel, now, d);
      return Ephemeral(message, channel, user);
    }

    /** The store half of `undoPlus`: undoes the voter's newest vote in the channel inside
        the window and names `target`'s new count, or says the window has passed. */
    method UndoVoteOf(user: string, target: string, channel: string, now: int, d: Draws) returns (message: string)
      requires store.Valid() && ValidDraws(d)
      modifies store
      ensures store.Valid()
      ensures store.users == old(store.users) && store.channels == old(store.channels)
              && store.nextId == old(store.nextId)
      ensures var last := Last(old(store.scores), user, channel, now - UNDO_TIME_LIMIT);
              (last.None? ==> message == UNDO_EXPIRED && store.scores == old(store.scores))
              && (last.Some? ==>
                    message == ReplyFor(MINUS, target, UserScore(store.scores, target, channel), d)
                    && store.scores == RemoveId(old(store.scores), last.value.id))
    {
      var score := store.UndoScore(user, target, channel, now);
      if score.Some? {
        message := Answer(GetOperationName("-"), target, score.value, d);
        return;
      }
      return UNDO_EXPIRED;
    }

    /** The `message` handler: routes the text, then undoes, refuses a self-vote, or hands
        the vote to `handlePlusMinus`. */
    method OnMessage(text: string, sender: string, channel: string, slack: Slack, now: int, d: Draws)
      returns (reply: Option<Ephemeral>)
      requires Valid() && ValidDraws(d)
      modifies this, store
      ensures Valid()
      ensures MessageDone(text, sender, channel, slack, now, d, old(Snapshot()), Snapshot(), reply)
    {
      var action := RouteMessage(text, sender, slack.isBot);
      match action
      case Ignore =>
        return None;
      case UndoVote =>
        var r := UndoPlus(sender, channel, now, d);
        return Some(r);
      case SelfPlus =>
        var message := Answer(SELF, sender, 0, d);
        return Some(Ephemeral(message, channel, sender));
      case Vote(item, operation, description) =>
        reply := HandlePlusMinus(item, operation, channel, sender, description, slack, now, d);
    }

    /** `handleEvent`: drops an event a guard rejects, hands the rest to its handler. A
        mention yields the command to run. */
    method HandleEvent(event: Event, slack: Slack, now: int, d: Draws) returns (route: Route, reply: Option<Ephemeral>,
                                                                       command: Option<Command>)
      requires Valid() && ValidDraws(d)
      requires event.text.Some? ==> |event.text.value| <= MAX_SAFE_INTEGER
      modifies this, store
      ensures Valid()
      ensures route == RouteEvent(event, slack.camelCase)
      ensures (route.Dropped? || route.ToInherited?) ==>
                reply.None? && command.None? && Snapshot() == old(Snapshot())
      ensures route == ToMessage ==>
                command.None?
                && MessageDone(event.text.value, event.user, event.channel, slack, now, d, old(Snapshot()), Snapshot(),
                               reply)
      ensures route == ToAppMention ==>
                reply.None? && Snapshot() == old(Snapshot())
                && ((forall j :: 0 <= j < |APP_COMMANDS| ==> IndexOf(event.text.value, APP_COMMANDS[j]) == -1)
                    <==> command.None?)
                && forall k :: IsFirstCommand(event.text.value, APP_COMMANDS, k) ==> command == CommandHandler(APP_COMMANDS[k])
    {
      route := RouteEvent(event, slack.camelCase);
      reply, command := None, None;
      match route
      case Dropped(_) =>
      case ToInherited(_) =>
      case ToMessage =>
        reply := OnMessage(event.text.value, event.user, event.channel, slack, now, d);
      case ToAppMention =>
        command := AppMention(event.text.value);
    }
  }

  /** Once a voter's entry is gone, looking them up finds nothing. */
  lemma NoEntryNotFound(list: seq<LedgerEntry>, voter: string)
    requires EntriesOf(list, voter) == []
    ensures FindVoter(list, voter).None?
  {
    forall k | 0 <= k < |list| ensures list[k].voter != voter {
      if list[k].voter == voter {
        SelectMembers(list, IsVoter(voter), list[k]);
      }
    }
  }
}
