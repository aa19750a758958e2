/**
 * Reply texts for votes: a weighted choice of a message set, a choice of a message inside
 * it, and the filling of the reply template. Both random draws are passed in as numbers in
 * [0, 1).
 */
module Messages {
  import opened Wrappers
  import opened Text
  import opened Operations
  import opened Helpers

  /** A pool of messages drawn with relative weight `probability`. */
  datatype MessageSet = MessageSet(probability: nat, messages: seq<string>)

  const SHIFTY: MessageSet := MessageSet(1, [":shifty:"])

  const PLUS_MESSAGES: seq<MessageSet> := [
    MessageSet(100, [
      "Congrats!", "Got it!", "Bravo.", "Oh well done.", "Nice work!", "Well done.",
      "Exquisite.", "Lovely.", "Superb.", "Classic!", "Charming.", "Noted.", "Well, well!",
      "Well played.", "Sincerest congratulations.", "Delicious."]),
    SHIFTY]

  const MINUS_MESSAGES: seq<MessageSet> := [
    MessageSet(100, [
      "Oh RLY?", "Oh, really?", "Oh :slightly_frowning_face:.", "I see.", "Ouch.",
      "Oh l\U{00E0} l\U{00E0}.", "Oh.", "Condolences."]),
    SHIFTY]

  const SELF_MESSAGES: seq<MessageSet> := [
    MessageSet(100, ["Hahahahahahaha no.", "Nope.", "No. Just no.", "Not cool!"]),
    SHIFTY]

  /** The placeholders of the reply templates. */
  const MESSAGE_TAG: string := "<message>"
  const ITEM_TAG: string := "<item>"
  const SCORE_TAG: string := "<score>"
  const PLURAL_TAG: string := "<plural>"

  /** `<message> *<item>* is now on <score> point<plural>.` */
  const VOTE_FORMAT: string := MESSAGE_TAG + " *" + ITEM_TAG + "* is now on " + SCORE_TAG + " point" + PLURAL_TAG + "."
  /** `<item> <message>` */
  const SELF_FORMAT: string := ITEM_TAG + " " + MESSAGE_TAG

  /** The message table entry for an operation name. */
  function MessagesFor(operation: string): Option<seq<MessageSet>> {
    if operation == PLUS then Some(PLUS_MESSAGES)
    else if operation == MINUS then Some(MINUS_MESSAGES)
    else if operation == SELF then Some(SELF_MESSAGES)
    else None
  }

  /** The reply template for an operation name; other names have none. */
  function FormatFor(operation: string): Option<string> {
    if operation == PLUS || operation == MINUS then Some(VOTE_FORMAT)
    else if operation == SELF then Some(SELF_FORMAT)
    else None
  }

  /** Every set can be drawn from and the weights do not all vanish. */
  predicate WellFormed(sets: seq<MessageSet>) {
    TotalProbability(sets) > 0 && forall k :: 0 <= k < |sets| ==> |sets[k].messages| > 0
  }

  /** The weight of the first `k` sets. */
  function Cumulative(sets: seq<MessageSet>, k: nat): nat
    requires k <= |sets|
  {
    if k == 0 then 0 else sets[0].probability + Cumulative(sets[1..], k - 1)
  }

  function TotalProbability(sets: seq<MessageSet>): nat {
    Cumulative(sets, |sets|)
  }

  lemma {:induction false} CumulativeStep(sets: seq<MessageSet>, k: nat)
    requires k < |sets|
    ensures Cumulative(sets, k + 1) == Cumulative(sets, k) + sets[k].probability
    decreases k
  {
    if k > 0 {
      CumulativeStep(sets[1..], k - 1);
    }
  }

  lemma TablesWellFormed()
    ensures WellFormed(PLUS_MESSAGES) && WellFormed(MINUS_MESSAGES) && WellFormed(SELF_MESSAGES)
    ensures TotalProbability(PLUS_MESSAGES) == 101 && TotalProbability(MINUS_MESSAGES) == 101
    ensures TotalProbability(SELF_MESSAGES) == 101
  {
    TwoSets(PLUS_MESSAGES[0], SHIFTY);
    TwoSets(MINUS_MESSAGES[0], SHIFTY);
    TwoSets(SELF_MESSAGES[0], SHIFTY);
  }

  lemma TwoSets(a: MessageSet, b: MessageSet)
    ensures TotalProbability([a, b]) == a.probability + b.probability
  {
    assert [a, b][1..] == [b];
    assert [b][1..] == [];
    assert Cumulative([b], 1) == b.probability + Cumulative([], 0);
    assert Cumulative([a, b], 2) == a.probability + Cumulative([b], 1);
  }

  /** The set the draw `setRandom` lands in: the first set whose cumulative weight exceeds
      it, or `|sets|` when it lies beyond the total. */
  function SetIndexFor(sets: seq<MessageSet>, setRandom: int): (k: nat)
    ensures k <= |sets|
    ensures setRandom >= 0 ==> (k < |sets| <==> setRandom < TotalProbability(sets))
    ensures setRandom >= 0 && k < |sets| ==> Cumulative(sets, k) <= setRandom < Cumulative(sets, k + 1)
  {
    if sets == [] then 0
    else if setRandom - sets[0].probability < 0 then 0
    else 1 + SetIndexFor(sets[1..], setRandom - sets[0].probability)
  }

  /** The weighted choice loop: subtract each set's weight from the draw and stop at the
      first set that takes it below zero. `remaining` is what is left of the draw. */
  method ChooseSet(sets: seq<MessageSet>, setRandom: int) returns (chosen: Option<nat>, remaining: int)
    ensures chosen == if SetIndexFor(sets, setRandom) < |sets| then Some(SetIndexFor(sets, setRandom)) else None
    ensures chosen.None? ==> remaining == setRandom - TotalProbability(sets)
  {
    remaining := setRandom;
    for i := 0 to |sets|
      invariant remaining == setRandom - Cumulative(sets, i)
      invariant SetIndexFor(sets, setRandom) == i + SetIndexFor(sets[i..], remaining)
    {
      assert sets[i..][0] == sets[i] && sets[i..][1..] == sets[i + 1..];
      CumulativeStep(sets, i);
      remaining := remaining - sets[i].probability;
      if 0 > remaining {
        return Some(i), remaining;
      }
    }
    assert sets[|sets|..] == [];
    chosen := None;
  }

  /** The loop adding up the weights. */
  method SumProbabilities(sets: seq<MessageSet>) returns (total: nat)
    ensures total == TotalProbability(sets)
  {
    total := 0;
    for i := 0 to |sets|
      invariant total == Cumulative(sets, i)
    {
      CumulativeStep(sets, i);
      total := total + sets[i].probability;
    }
  }

  /** The draw of a set from `[0, total)`: `floor(u * total)`. */
  function SetDraw(total: nat, u: real): (r: int)
    requires 0.0 <= u < 1.0
    ensures total > 0 ==> 0 <= r < total
  {
    var t := total as real;
    assert total > 0 ==> u * t < t by {
      if total > 0 {
        assert (1.0 - u) * t > 0.0;
      }
    }
    (u * t).Floor
  }

  /** The message index as the source draws it, `floor(u * (len - 1))`. */
  function MessageIndex(len: nat, u: real): (i: int)
    requires 0.0 <= u < 1.0
    ensures len >= 1 ==> 0 <= i < len
    ensures len == 1 ==> i == 0
    ensures len >= 2 ==> i < len - 1
  {
    var m := (len as int - 1) as real;
    assert len >= 1 ==> 0.0 <= u * m by {
      if len >= 1 {
        assert m >= 0.0;
      }
    }
    assert len >= 2 ==> u * m < m by {
      if len >= 2 {
        assert (1.0 - u) * m > 0.0;
      }
    }
    (u * m).Floor
  }

  /** Every message but the last of a set is drawn for some `u`. */
  lemma EarlierMessagesReachable(len: nat, i: nat)
    requires i < len - 1
    ensures MessageIndex(len, i as real / (len - 1) as real) == i
  {
    var m := (len - 1) as real;
    var u := i as real / m;
    assert u * m == i as real;
  }

  /** The message the two draws select. */
  function DrawnMessage(sets: seq<MessageSet>, setDraw: real, indexDraw: real): (m: string)
    requires WellFormed(sets)
    requires 0.0 <= setDraw < 1.0 && 0.0 <= indexDraw < 1.0
    ensures exists k :: 0 <= k < |sets| && m in sets[k].messages
  {
    var k := SetIndexFor(sets, SetDraw(TotalProbability(sets), setDraw));
    var msgs := sets[k].messages;
    msgs[MessageIndex(|msgs|, indexDraw)]
  }

  function PluralSuffix(score: int): string {
    if IsPlural(score) then "s" else ""
  }

  /** The template filled one placeholder at a time, each `replace` changing only the first
      occurrence: item, then score, then plural, then message. */
  function Reply(format: string, item: string, score: int, message: string): string {
    var withItem := ReplaceFirst(format, ITEM_TAG, MaybeLinkItem(item));
    var withScore := ReplaceFirst(withItem, SCORE_TAG, IntToString(score));
    var withPlural := ReplaceFirst(withScore, PLURAL_TAG, PluralSuffix(score));
    ReplaceFirst(withPlural, MESSAGE_TAG, message)
  }

  /** `getRandomMessage`: an unknown operation is an error; otherwise the reply template of
      the operation filled with the drawn message. */
  method GetRandomMessage(operation: string, item: string, score: int, setDraw: real, indexDraw: real)
    returns (r: Result<string, string>)
    requires 0.0 <= setDraw < 1.0 && 0.0 <= indexDraw < 1.0
    ensures r.Err? <==> MessagesFor(operation).None?
    ensures r.Err? ==> r.error == "Invalid operation: " + operation
    ensures r.Ok? ==> WellFormed(MessagesFor(operation).value)
                      && r.value == Reply(FormatFor(operation).value, item, score,
                                          DrawnMessage(MessagesFor(operation).value, setDraw, indexDraw))
    ensures r.Ok? && '<' !in item && (operation == PLUS || operation == MINUS) ==>
              r.value == DrawnMessage(MessagesFor(operation).value, setDraw, indexDraw) + " *"
                         + MaybeLinkItem(item) + "* is now on " + IntToString(score) + " point"
                         + PluralSuffix(score) + "."
    ensures r.Ok? && '<' !in item && operation == SELF ==>
              r.value == MaybeLinkItem(item) + " " + DrawnMessage(MessagesFor(operation).value, setDraw, indexDraw)
  {
    TablesWellFormed();
    var format: string;
    if operation == MINUS || operation == PLUS {
      format := VOTE_FORMAT;
    } else if operation == SELF {
      format := SELF_FORMAT;
    } else {
      return Err("Invalid operation: " + operation);
    }
    var messageSets := MessagesFor(operation).value;
    var totalProbability := SumProbabilities(messageSets);
    var setRandom := SetDraw(totalProbability, setDraw);
    var chosen, remaining := ChooseSet(messageSets, setRandom);
    if chosen.None? {
      return Err("Could not find set for " + operation + " (ran out of sets with "
                 + IntToString(remaining) + " remaining)");
    }
    var chosenSet := messageSets[chosen.value].messages;
    var random := MessageIndex(|chosenSet|, indexDraw);
    var message := chosenSet[random];
    r := Ok(Reply(format, item, score, message));
    if '<' !in item {
      VoteReplyShape(item, score, message);
      SelfReplyShape(item, score, message);
    }
  }

  /** With weights 100 and 1, the draw 99 still lands in the first set and 100 in the
      `:shifty:` set. */
  lemma ShiftyDraw()
    ensures SetIndexFor(PLUS_MESSAGES, 99) == 0
    ensures SetIndexFor(PLUS_MESSAGES, 100) == 1 && PLUS_MESSAGES[1].messages == [":shifty:"]
  {
    assert PLUS_MESSAGES[1..] == [SHIFTY];
  }

  /** A mention link opens with `<@`, and an item without `<` opens nothing else. */
  lemma LinkGuard(item: string, y: char)
    requires '<' !in item && y != '@'
    ensures NoPairIn(MaybeLinkItem(item), '<', y)
  {
    var link := MaybeLinkItem(item);
    forall j | 0 <= j < |link| && link[j] == '<' ensures j + 1 < |link| && link[j + 1] != y {
      if IsUser(item) {
        assert link == "<@" + item + ">";
      }
    }
  }

  lemma NumberGuard(score: int, y: char)
    ensures NoPairIn(IntToString(score), '<', y)
  {
  }

  /** Filling a template `m x0 i x1 s x2 p x3` placeholder by placeholder, where no
      placeholder can begin earlier than its own place, puts each value at its place. */
  lemma FillInOrder(m: string, x0: string, i: string, x1: string, s: string, x2: string, p: string,
                    x3: string, link: string, num: string, pl: string, msg: string)
    requires |m| >= 2 && |i| >= 2 && |s| >= 2 && |p| >= 2
    requires NoPairIn(m + x0, i[0], i[1])
    requires NoPairIn(m + x0 + link + x1, s[0], s[1])
    requires NoPairIn(m + x0 + link + x1 + num + x2, p[0], p[1])
    ensures ReplaceFirst(ReplaceFirst(ReplaceFirst(ReplaceFirst(m + x0 + i + x1 + s + x2 + p + x3,
              i, link), s, num), p, pl), m, msg)
         == msg + x0 + link + x1 + num + x2 + pl + x3
  {
    var f0 := m + x0 + i + x1 + s + x2 + p + x3;
    FillItem(m, x0, i, x1, s, x2, p, x3, link);
    var a1 := m + x0 + link + x1;
    FillScore(a1, s, x2, p, x3, num);
    var a2 := a1 + num + x2;
    FillPlural(m, x0, link, x1, num, x2, p, x3, pl);
    var rest := x0 + link + x1 + num + x2 + pl + x3;
    ReplaceAfter([], m, rest, msg);
    RegroupHead(msg, x0, link, x1, num, x2, pl, x3);
  }

  /** The first step of `FillInOrder`: the item placeholder is replaced in place. */
  lemma FillItem(m: string, x0: string, i: string, x1: string, s: string, x2: string, p: string,
                 x3: string, link: string)
    requires |i| >= 2 && NoPairIn(m + x0, i[0], i[1])
    ensures ReplaceFirst(m + x0 + i + x1 + s + x2 + p + x3, i, link) == (m + x0 + link + x1) + s + (x2 + p + x3)
  {
    var a0 := m + x0;
    Regroup5(a0 + i, x1, s, x2, p, x3);
    ReplaceAfter(a0, i, x1 + s + x2 + p + x3, link);
    Regroup5(a0 + link, x1, s, x2, p, x3);
    Regroup3(a0 + link + x1 + s, x2, p, x3);
  }

  lemma Regroup3(a: string, b: string, c: string, d: string)
    ensures a + (b + c + d) == a + b + c + d
  {
    Regroup(a, b + c, d);
    Regroup(a, b, c);
  }

  lemma Regroup5(a: string, b: string, c: string, d: string, e: string, f: string)
    ensures a + (b + c + d + e + f) == a + b + c + d + e + f
  {
    Regroup(a, b + c + d + e, f);
    Regroup(a, b + c + d, e);
    Regroup(a, b + c, d);
    Regroup(a, b, c);
  }

  /** The second step of `FillInOrder`: the score placeholder is replaced in place. */
  lemma FillScore(a1: string, s: string, x2: string, p: string, x3: string, num: string)
    requires |s| >= 2 && NoPairIn(a1, s[0], s[1])
    ensures ReplaceFirst(a1 + s + (x2 + p + x3), s, num) == (a1 + num + x2) + p + x3
  {
    ReplaceAfter(a1, s, x2 + p + x3, num);
    Regroup(a1 + num, x2 + p, x3);
    Regroup(a1 + num, x2, p);
    Regroup(a1, num, x2 + p + x3);
  }

  /** The third step of `FillInOrder`: the plural placeholder is replaced in place. */
  lemma FillPlural(m: string, x0: string, link: string, x1: string, num: string, x2: string, p: string,
                   x3: string, pl: string)
    requires |p| >= 2 && NoPairIn(m + x0 + link + x1 + num + x2, p[0], p[1])
    ensures ReplaceFirst(m + x0 + link + x1 + num + x2 + p + x3, p, pl)
            == [] + m + (x0 + link + x1 + num + x2 + pl + x3)
  {
    ReplaceAfter(m + x0 + link + x1 + num + x2, p, x3, pl);
    RegroupHead(m, x0, link, x1, num, x2, pl, x3);
  }

  lemma Regroup(a: string, b: string, c: string)
    ensures a + (b + c) == a + b + c
  {
  }

  lemma RegroupHead(h: string, x0: string, link: string, x1: string, num: string, x2: string,
                    pl: string, x3: string)
    ensures [] + h + (x0 + link + x1 + num + x2 + pl + x3) == h + x0 + link + x1 + num + x2 + pl + x3
  {
    assert [] + h == h;
    Regroup(h, x0 + link + x1 + num + x2 + pl, x3);
    Regroup(h, x0 + link + x1 + num + x2, pl);
    Regroup(h, x0 + link + x1 + num, x2);
    Regroup(h, x0 + link + x1, num);
    Regroup(h, x0 + link, x1);
    Regroup(h, x0, link);
  }

  /** A vote reply reads `<message> *<item>* is now on <score> point<plural>.`, whatever
      message was drawn, for any item without a `<`. */
  lemma VoteReplyShape(item: string, score: int, message: string)
    requires '<' !in item
    ensures Reply(VOTE_FORMAT, item, score, message)
         == message + " *" + MaybeLinkItem(item) + "* is now on " + IntToString(score)
            + " point" + PluralSuffix(score) + "."
  {
    VoteGuards(item, score);
    FillInOrder(MESSAGE_TAG, " *", ITEM_TAG, "* is now on ", SCORE_TAG, " point", PLURAL_TAG, ".",
                MaybeLinkItem(item), IntToString(score), PluralSuffix(score), message);
  }

  lemma TagHeads()
    ensures |MESSAGE_TAG| >= 2 && MESSAGE_TAG[0] == '<' && MESSAGE_TAG[1] == 'm'
    ensures |ITEM_TAG| >= 2 && ITEM_TAG[0] == '<' && ITEM_TAG[1] == 'i'
    ensures |SCORE_TAG| >= 2 && SCORE_TAG[0] == '<' && SCORE_TAG[1] == 's'
    ensures |PLURAL_TAG| >= 2 && PLURAL_TAG[0] == '<' && PLURAL_TAG[1] == 'p'
    ensures forall y :: y != 'm' ==> NoPairIn(MESSAGE_TAG, '<', y)
  {
  }

  /** No placeholder of the vote template can begin before its own place. */
  lemma VoteGuards(item: string, score: int)
    requires '<' !in item
    ensures NoPairIn(MESSAGE_TAG + " *", ITEM_TAG[0], ITEM_TAG[1])
    ensures NoPairIn(MESSAGE_TAG + " *" + MaybeLinkItem(item) + "* is now on ", SCORE_TAG[0], SCORE_TAG[1])
    ensures NoPairIn(MESSAGE_TAG + " *" + MaybeLinkItem(item) + "* is now on " + IntToString(score) + " point",
                     PLURAL_TAG[0], PLURAL_TAG[1])
  {
    TagHeads();
    var link := MaybeLinkItem(item);
    var num := IntToString(score);
    assert NoPairIn(" *", '<', 'i');
    NoPairInConcat(MESSAGE_TAG, " *", '<', 'i');
    GuardedPrefix(item, 's');
    GuardedPrefix(item, 'p');
    NoPairInConcat(MESSAGE_TAG + " *" + link + "* is now on ", num, '<', 'p');
    assert NoPairIn(" point", '<', 'p');
    NoPairInConcat(MESSAGE_TAG + " *" + link + "* is now on " + num, " point", '<', 'p');
  }

  lemma GuardedPrefix(item: string, y: char)
    requires '<' !in item && y != '@' && y != 'm'
    ensures NoPairIn(MESSAGE_TAG + " *" + MaybeLinkItem(item) + "* is now on ", '<', y)
  {
    TagHeads();
    assert NoPairIn(" *", '<', y);
    assert NoPairIn("* is now on ", '<', y);
    NoPairInConcat(MESSAGE_TAG, " *", '<', y);
    LinkGuard(item, y);
    NoPairInConcat(MESSAGE_TAG + " *", MaybeLinkItem(item), '<', y);
    NoPairInConcat(MESSAGE_TAG + " *" + MaybeLinkItem(item), "* is now on ", '<', y);
  }

  /** A self-vote reply reads `<item> <message>`, whatever message was drawn, for any item
      without a `<`. */
  lemma SelfReplyShape(item: string, score: int, message: string)
    requires '<' !in item
    ensures Reply(SELF_FORMAT, item, score, message) == MaybeLinkItem(item) + " " + message
  {
    var link := MaybeLinkItem(item);
    SelfItemStep(link);
    SelfUntouched(link, item, score);
    SelfMessageStep(link, item, message);
  }

  lemma SelfItemStep(link: string)
    ensures ReplaceFirst(SELF_FORMAT, ITEM_TAG, link) == link + (" " + MESSAGE_TAG)
  {
    Regroup(ITEM_TAG, " ", MESSAGE_TAG);
    ReplaceAtStart(ITEM_TAG, " " + MESSAGE_TAG, link);
  }

  lemma SelfMessageStep(link: string, item: string, message: string)
    requires link == MaybeLinkItem(item) && '<' !in item
    ensures ReplaceFirst(link + (" " + MESSAGE_TAG), MESSAGE_TAG, message) == link + " " + message
  {
    TagHeads();
    assert link + (" " + MESSAGE_TAG) == (link + " ") + MESSAGE_TAG + [];
    LinkGuard(item, 'm');
    assert NoPairIn(" ", '<', 'm');
    NoPairInConcat(link, " ", '<', 'm');
    ReplaceAfter(link + " ", MESSAGE_TAG, [], message);
    assert link + " " + message + [] == link + " " + message;
  }

  /** The score and plural placeholders do not occur in a self-vote reply. */
  lemma SelfUntouched(link: string, item: string, score: int)
    requires link == MaybeLinkItem(item) && '<' !in item
    ensures ReplaceFirst(link + (" " + MESSAGE_TAG), SCORE_TAG, IntToString(score)) == link + (" " + MESSAGE_TAG)
    ensures ReplaceFirst(link + (" " + MESSAGE_TAG), PLURAL_TAG, PluralSuffix(score)) == link + (" " + MESSAGE_TAG)
  {
    TagHeads();
    var tail := " " + MESSAGE_TAG;
    assert NoPairIn(" ", '<', 's') && NoPairIn(" ", '<', 'p');
    NoPairInConcat(" ", MESSAGE_TAG, '<', 's');
    NoPairInConcat(" ", MESSAGE_TAG, '<', 'p');
    LinkGuard(item, 's');
    NoPairInConcat(link, tail, '<', 's');
    PairAbsent(link + tail, SCORE_TAG);
    ReplaceAbsent(link + tail, SCORE_TAG, IntToString(score));
    LinkGuard(item, 'p');
    NoPairInConcat(link, tail, '<', 'p');
    PairAbsent(link + tail, PLURAL_TAG);
    ReplaceAbsent(link + tail, PLURAL_TAG, PluralSuffix(score));
  }
}
