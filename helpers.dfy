/**
 * Message-text scanners and small predicates used by the event handlers: the earliest
 * command word in a message, the `<@id>++` vote directive, Slack user ids, plural
 * choice, mention links and the time window of a time-based token.
 */
module Helpers {
  import opened Wrappers
  import opened Text

  /** `Number.MAX_SAFE_INTEGER`, the starting "no command yet" location. */
  const MAX_SAFE_INTEGER: int := 9007199254740991

  const ONE_DAY: int := 60 * 60 * 24
  const TOKEN_TTL: int := ONE_DAY

  const EM_DASH: char := '\U{2014}'

  // ---------------------------------------------------------------------------
  // extractCommand

  /** Command `k` is the one the scan settles on: it occurs, every command listed before it
      occurs strictly later or not at all, and every command listed after it occurs no
      earlier or not at all. */
  ghost predicate IsFirstCommand(message: string, commands: seq<string>, k: int) {
    && 0 <= k < |commands|
    && IndexOf(message, commands[k]) != -1
    && (forall j :: 0 <= j < k ==>
          IndexOf(message, commands[j]) == -1 || IndexOf(message, commands[j]) > IndexOf(message, commands[k]))
    && (forall j :: k < j < |commands| ==>
          IndexOf(message, commands[j]) == -1 || IndexOf(message, commands[j]) >= IndexOf(message, commands[k]))
  }

  /** Finds the command whose first occurrence in the message comes first; a tie goes to the
      command listed first. No occurring command, or an empty command chosen, gives `None`
      (the source's `false`). Whole words are not required. */
  method ExtractCommand(message: string, commands: seq<string>) returns (r: Option<string>)
    requires |message| <= MAX_SAFE_INTEGER
    ensures (forall j :: 0 <= j < |commands| ==> IndexOf(message, commands[j]) == -1) ==> r == None
    ensures forall k :: IsFirstCommand(message, commands, k) ==>
              r == if commands[k] == "" then None else Some(commands[k])
    ensures r.Some? ==> exists k :: IsFirstCommand(message, commands, k) && commands[k] == r.value
    ensures r.None? ==> (forall j :: 0 <= j < |commands| ==> IndexOf(message, commands[j]) == -1)
                        || exists k :: IsFirstCommand(message, commands, k) && commands[k] == ""
    ensures r.Some? ==> r.value in commands && r.value != "" && IndexOf(message, r.value) != -1
  {
    var firstLocation := MAX_SAFE_INTEGER;
    var firstCommand: Option<string> := None;
    ghost var k := -1;
    for i := 0 to |commands|
      invariant Scanned(message, commands, i, k, firstCommand, firstLocation)
    {
      k, firstCommand, firstLocation := ScanOne(message, commands, i, k, firstCommand, firstLocation);
    }
    r := if firstCommand.Some? && firstCommand.value != "" then firstCommand else None;
    ScanDone(message, commands, k, firstCommand, firstLocation);
  }

  /** The state of the scan after the first `i` commands: `k` is the command kept so far
      (-1 for none), found at `firstLocation`, earlier than every command before it and no
      later than every command after it. */
  ghost predicate Scanned(message: string, commands: seq<string>, i: int, k: int, firstCommand: Option<string>,
                          firstLocation: int)
  {
    && 0 <= i <= |commands|
    && -1 <= k < i
    && (k == -1 ==> firstCommand == None && firstLocation == MAX_SAFE_INTEGER)
    && (k == -1 ==> forall j :: 0 <= j < i ==> IndexOf(message, commands[j]) == -1)
    && (k != -1 ==> firstCommand == Some(commands[k]) && firstLocation == IndexOf(message, commands[k]) != -1)
    && (k != -1 ==> forall j :: 0 <= j < k ==>
          IndexOf(message, commands[j]) == -1 || IndexOf(message, commands[j]) > firstLocation)
    && (k != -1 ==> forall j :: k < j < i ==>
          IndexOf(message, commands[j]) == -1 || IndexOf(message, commands[j]) >= firstLocation)
  }

  /** One step of the scan: command `i` replaces the kept one when it occurs strictly
      earlier. */
  method ScanOne(message: string, commands: seq<string>, i: int, ghost k: int, firstCommand: Option<string>,
                 firstLocation: int)
    returns (ghost k': int, firstCommand': Option<string>, firstLocation': int)
    requires |message| <= MAX_SAFE_INTEGER && i < |commands|
    requires Scanned(message, commands, i, k, firstCommand, firstLocation)
    ensures Scanned(message, commands, i + 1, k', firstCommand', firstLocation')
  {
    k', firstCommand', firstLocation' := k, firstCommand, firstLocation;
    var location := IndexOf(message, commands[i]);
    if -1 != location && location < firstLocation {
      firstLocation' := location;
      firstCommand' := Some(commands[i]);
      k' := i;
    }
  }

  /** At the end of the scan the kept command is the one `IsFirstCommand` describes. */
  lemma ScanDone(message: string, commands: seq<string>, k: int, firstCommand: Option<string>, firstLocation: int)
    requires Scanned(message, commands, |commands|, k, firstCommand, firstLocation)
    ensures k == -1 ==> forall j :: 0 <= j < |commands| ==> IndexOf(message, commands[j]) == -1
    ensures k != -1 ==> IsFirstCommand(message, commands, k) && firstCommand == Some(commands[k])
    ensures forall k0 :: IsFirstCommand(message, commands, k0) ==> k0 == k
  {
    forall k0 | IsFirstCommand(message, commands, k0) ensures k0 == k {
    }
  }

  // ---------------------------------------------------------------------------
  // Slack user ids: /U[A-Z0-9]+/

  predicate IsIdChar(c: char) { IsAsciiUpper(c) || IsDigit(c) }

  predicate IsAlnum(c: char) { IsAsciiUpper(c) || IsAsciiLower(c) || IsDigit(c) }

  predicate IsGt(c: char) { c == '>' }

  predicate NotLineTerminator(c: char) { !IsLineTerminator(c) }

  /** A user id `U` followed by an upper-case letter or digit starts at index `i`. */
  predicate UserIdAt(s: string, i: int) {
    0 <= i && i + 1 < |s| && s[i] == 'U' && IsIdChar(s[i + 1])
  }

  /** The length of the longest prefix of `s` whose characters all satisfy `p`. */
  function Run(s: string, p: char -> bool): (n: nat)
    ensures n <= |s|
    ensures forall i :: 0 <= i < n ==> p(s[i])
    ensures n == |s| || !p(s[n])
  {
    if s == [] || !p(s[0]) then 0 else 1 + Run(s[1..], p)
  }

  lemma {:induction false} RunOf(a: string, b: string, p: char -> bool)
    requires forall i :: 0 <= i < |a| ==> p(a[i])
    requires b == [] || !p(b[0])
    ensures Run(a + b, p) == |a|
    decreases |a|
  {
    if a == [] {
      assert a + b == b;
    } else {
      assert (a + b)[0] == a[0];
      assert (a + b)[1..] == a[1..] + b;
      RunOf(a[1..], b, p);
    }
  }

  /** The first index at or after `from` where a user id starts, or -1. */
  function FirstUserIdFrom(s: string, from: nat): (r: int)
    requires from <= |s|
    ensures r == -1 ==> forall j :: from <= j ==> !UserIdAt(s, j)
    ensures r != -1 ==> from <= r && UserIdAt(s, r) && forall j :: from <= j < r ==> !UserIdAt(s, j)
    decreases |s| - from
  {
    if UserIdAt(s, from) then from
    else if from == |s| then -1
    else FirstUserIdFrom(s, from + 1)
  }

  /** `isUser`: the text contains a Slack user id anywhere. */
  function IsUser(item: string): (r: bool)
    ensures r <==> exists i :: UserIdAt(item, i)
  {
    var p := FirstUserIdFrom(item, 0);
    assert p != -1 ==> UserIdAt(item, p);
    p != -1
  }

  /** `extractUserID`: the leftmost, longest match of `U[A-Z0-9]+`, or '' when there is none. */
  function ExtractUserID(text: string): (r: string)
    ensures r == "" <==> !IsUser(text)
    ensures r != "" ==> exists i :: UserIdAt(text, i) && (forall j :: 0 <= j < i ==> !UserIdAt(text, j))
                                    && i + |r| <= |text| && r == text[i..i + |r|]
                                    && (i + |r| == |text| || !IsIdChar(text[i + |r|]))
    ensures r != "" ==> |r| >= 2 && r[0] == 'U' && forall k :: 1 <= k < |r| ==> IsIdChar(r[k])
  {
    var p := FirstUserIdFrom(text, 0);
    if p == -1 then ""
    else
      var n := Run(text[p + 1..], IsIdChar);
      assert text[p..p + 1 + n] == [text[p]] + text[p + 1..][..n];
      assert p + 1 + n < |text| ==> text[p + 1 + n] == text[p + 1..][n];
      text[p..p + 1 + n]
  }

  // ---------------------------------------------------------------------------
  // extractPlusMinusEventData: /<@([A-Za-z0-9]+)>+\s*(\+{2}|-{2}|—{1}|undo)\s*(.+)?/

  /** The three capture groups of one match of the directive pattern. */
  datatype RawMatch = RawMatch(item: string, op: string, description: Option<string>)

  /** The vote directive as the handlers see it; `operation` is "+", "-" or "undo". */
  datatype PlusMinus = PlusMinus(item: string, operation: string, description: Option<string>)

  predicate AllAlnum(s: string) { forall i :: 0 <= i < |s| ==> IsAlnum(s[i]) }

  predicate AllWhitespace(s: string) { forall i :: 0 <= i < |s| ==> IsWhitespace(s[i]) }

  /** A reason text as the pattern captures it: it does not start with white space and stops
      before any line terminator. */
  predicate IsDescription(s: string) {
    |s| > 0 && !IsWhitespace(s[0]) && forall i :: 0 <= i < |s| ==> !IsLineTerminator(s[i])
  }

  /** The operator alternatives, tried in the pattern's order. */
  function OperatorPrefix(x: string): (r: Option<string>)
    ensures r.Some? ==> r.value in {"++", "--", [EM_DASH], "undo"} && |r.value| <= |x| && x[..|r.value|] == r.value
  {
    if |x| >= 2 && x[..2] == "++" then Some("++")
    else if |x| >= 2 && x[..2] == "--" then Some("--")
    else if |x| >= 1 && x[0] == EM_DASH then Some([EM_DASH])
    else if |x| >= 4 && x[..4] == "undo" then Some("undo")
    else None
  }

  /** The pattern matched at the very start of `s`. Every quantifier is greedy and none of
      them can give characters back to a later part of the pattern, so the match is the
      sequence of longest runs. */
  function MatchHere(s: string): (r: Option<RawMatch>)
    ensures r.Some? ==> |s| >= 2 && s[0] == '<' && s[1] == '@'
    ensures r.Some? ==> |r.value.item| > 0 && AllAlnum(r.value.item)
    ensures r.Some? ==> r.value.op in {"++", "--", [EM_DASH], "undo"}
    ensures r.Some? && r.value.description.Some? ==> IsDescription(r.value.description.value)
  {
    if |s| < 2 || s[0] != '<' || s[1] != '@' then None else MatchId(s[2..])
  }

  /** After `<@`: the captured id, then one or more `>`. */
  function MatchId(t: string): (r: Option<RawMatch>)
    ensures r.Some? ==> |r.value.item| > 0 && AllAlnum(r.value.item)
    ensures r.Some? ==> r.value.op in {"++", "--", [EM_DASH], "undo"}
    ensures r.Some? && r.value.description.Some? ==> IsDescription(r.value.description.value)
  {
    var n := Run(t, IsAlnum);
    if n == 0 || n == |t| || t[n] != '>' then None
    else
      var u := t[n..];
      MatchOperator(t[..n], u[Run(u, IsGt)..])
  }

  /** After the `>`s: optional white space, then the operator. */
  function MatchOperator(item: string, v: string): (r: Option<RawMatch>)
    requires |item| > 0 && AllAlnum(item)
    ensures r.Some? ==> r.value.item == item
    ensures r.Some? ==> r.value.op in {"++", "--", [EM_DASH], "undo"}
    ensures r.Some? && r.value.description.Some? ==> IsDescription(r.value.description.value)
  {
    var x := v[Run(v, IsWhitespace)..];
    match OperatorPrefix(x)
    case None => None
    case Some(op) => Some(RawMatch(item, op, Description(x[|op|..])))
  }

  /** After the operator: optional white space, then the reason up to the end of the line. */
  function Description(y: string): (r: Option<string>)
    ensures r.Some? ==> IsDescription(r.value)
  {
    var z := y[Run(y, IsWhitespace)..];
    var d := Run(z, NotLineTerminator);
    assert d > 0 ==> !IsWhitespace(z[0]);
    if d == 0 then None else Some(z[..d])
  }

  /** `text.match(pattern)`: the leftmost position where the pattern matches. */
  function FirstMatch(s: string): (r: Option<RawMatch>)
    ensures r.Some? ==> |r.value.item| > 0 && AllAlnum(r.value.item)
    ensures r.Some? ==> r.value.op in {"++", "--", [EM_DASH], "undo"}
    ensures r.Some? && r.value.description.Some? ==> IsDescription(r.value.description.value)
  {
    if s == [] then None
    else match MatchHere(s)
      case Some(m) => Some(m)
      case None => FirstMatch(s[1..])
  }

  /** The operation a matched operator stands for: `++` is "+", `--` and the em dash are "-",
      and `undo` stays "undo". */
  function Sign(op: string): string {
    if op == "undo" then "undo" else if op == "++" then "+" else "-"
  }

  /** `extractPlusMinusEventData`: the first directive in the text, or `None` (the source's
      `false`) when there is none or its captured id holds no Slack user id. */
  function ExtractPlusMinusEventData(text: string): (r: Option<PlusMinus>)
    ensures r.Some? ==> |r.value.item| > 0 && AllAlnum(r.value.item) && IsUser(r.value.item)
    ensures r.Some? ==> r.value.operation in {"+", "-", "undo"}
    ensures r.Some? && r.value.description.Some? ==> IsDescription(r.value.description.value)
  {
    match FirstMatch(text)
    case None => None
    case Some(m) =>
      if ExtractUserID(m.item) == "" then None
      else Some(PlusMinus(m.item, Sign(m.op), m.description))
  }

  /** A text with no `<@` anywhere never holds a directive. */
  lemma {:induction false} NoMentionNoDirective(text: string)
    requires forall i :: !OccursAt(text, "<@", i)
    ensures ExtractPlusMinusEventData(text) == None
  {
    NoMentionNoMatch(text);
  }

  lemma {:induction false} NoMentionNoMatch(s: string)
    requires forall i :: !OccursAt(s, "<@", i)
    ensures FirstMatch(s) == None
    decreases |s|
  {
    if s != [] {
      assert MatchHere(s) == None by {
        if |s| >= 2 { assert !OccursAt(s, "<@", 0); assert s[0..2] == [s[0], s[1]]; }
      }
      forall i ensures !OccursAt(s[1..], "<@", i) {
        if 0 <= i && i + 2 <= |s[1..]| {
          assert !OccursAt(s, "<@", i + 1);
          assert s[1..][i..i + 2] == s[i + 1..i + 3];
        }
      }
      NoMentionNoMatch(s[1..]);
    }
  }

  /** Characters before the first `<` cannot start a match. */
  lemma {:induction false} SkipPrefix(prefix: string, rest: string)
    requires '<' !in prefix
    ensures FirstMatch(prefix + rest) == FirstMatch(rest)
    decreases |prefix|
  {
    var s := prefix + rest;
    if prefix == [] {
      assert s == rest;
    } else {
      assert s[0] == prefix[0];
      assert MatchHere(s) == None;
      assert s[1..] == prefix[1..] + rest;
      SkipPrefix(prefix[1..], rest);
    }
  }

  lemma DescriptionOf(ws2: string, desc: string)
    requires AllWhitespace(ws2)
    requires desc == [] || IsDescription(desc)
    ensures Description(ws2 + desc) == if desc == [] then None else Some(desc)
  {
    RunOf(ws2, desc, IsWhitespace);
    assert (ws2 + desc)[|ws2|..] == desc;
    RunOf(desc, [], NotLineTerminator);
    assert desc + [] == desc;
    assert desc[..|desc|] == desc;
  }

  lemma OperatorPrefixOf(op: string, y: string)
    requires op in {"++", "--", [EM_DASH], "undo"}
    ensures OperatorPrefix(op + y) == Some(op)
  {
    var x := op + y;
    assert x[..|op|] == op;
    if op == "--" || op == [EM_DASH] || op == "undo" {
      assert x[0] == op[0];
    }
    if op == "undo" {
      assert x[..2] != "--" by { assert x[..2][0] == 'u'; }
    }
  }

  lemma OperatorHead(op: string)
    requires op in {"++", "--", [EM_DASH], "undo"}
    ensures |op| > 0 && op[0] != '>' && !IsWhitespace(op[0])
  {
    if op == "++" {
      assert op[0] == '+';
    } else if op == "--" {
      assert op[0] == '-';
    } else if op == "undo" {
      assert op[0] == 'u';
    }
  }

  lemma OperatorOf(item: string, ws1: string, op: string, y: string)
    requires |item| > 0 && AllAlnum(item)
    requires AllWhitespace(ws1)
    requires op in {"++", "--", [EM_DASH], "undo"}
    ensures MatchOperator(item, ws1 + op + y) == Some(RawMatch(item, op, Description(y)))
  {
    var x := op + y;
    assert ws1 + op + y == ws1 + x;
    OperatorHead(op);
    assert x[0] == op[0];
    RunOf(ws1, x, IsWhitespace);
    assert (ws1 + x)[|ws1|..] == x;
    OperatorPrefixOf(op, y);
    assert x[|op|..] == y;
  }

  lemma IdOf(item: string, gts: string, v: string)
    requires |item| > 0 && AllAlnum(item)
    requires |gts| > 0 && forall i :: 0 <= i < |gts| ==> gts[i] == '>'
    requires v == [] || v[0] != '>'
    ensures MatchId(item + gts + v) == MatchOperator(item, v)
  {
    var u := gts + v;
    var t := item + u;
    assert item + gts + v == t;
    assert u[0] == '>';
    RunOf(item, u, IsAlnum);
    assert t[|item|..] == u && t[..|item|] == item;
    RunOf(gts, v, IsGt);
    assert u[|gts|..] == v;
  }

  lemma NotGtAhead(ws1: string, op: string, y: string)
    requires AllWhitespace(ws1)
    requires op in {"++", "--", [EM_DASH], "undo"}
    ensures (ws1 + op + y)[0] != '>'
  {
    OperatorHead(op);
    var v := ws1 + op + y;
    if ws1 == [] {
      assert v == op + y;
      assert v[0] == op[0];
    } else {
      assert v[0] == ws1[0];
    }
  }

  lemma MatchComposed(item: string, gts: string, ws1: string, op: string, ws2: string, desc: string)
    requires |item| > 0 && AllAlnum(item)
    requires |gts| > 0 && forall i :: 0 <= i < |gts| ==> gts[i] == '>'
    requires AllWhitespace(ws1) && AllWhitespace(ws2)
    requires op in {"++", "--", [EM_DASH], "undo"}
    requires desc == [] || IsDescription(desc)
    ensures MatchHere("<@" + (item + gts + (ws1 + op + (ws2 + desc))))
         == Some(RawMatch(item, op, if desc == [] then None else Some(desc)))
  {
    var y := ws2 + desc;
    var v := ws1 + op + y;
    var t := item + gts + v;
    var s := "<@" + t;
    assert s[2..] == t;
    NotGtAhead(ws1, op, y);
    IdOf(item, gts, v);
    OperatorOf(item, ws1, op, y);
    DescriptionOf(ws2, desc);
  }

  /** A directive written out in full — the id, one or more `>`, white space, the operator,
      white space and a reason — is read back as exactly those parts, whatever text without
      a `<` comes before it. */
  lemma ComposedDirective(prefix: string, item: string, gts: string, ws1: string, op: string,
                          ws2: string, desc: string)
    requires '<' !in prefix
    requires |item| > 0 && AllAlnum(item)
    requires |gts| > 0 && forall i :: 0 <= i < |gts| ==> gts[i] == '>'
    requires AllWhitespace(ws1) && AllWhitespace(ws2)
    requires op in {"++", "--", [EM_DASH], "undo"}
    requires desc == [] || IsDescription(desc)
    ensures ExtractPlusMinusEventData(prefix + "<@" + item + gts + ws1 + op + ws2 + desc)
         == if IsUser(item) then Some(PlusMinus(item, Sign(op), if desc == [] then None else Some(desc)))
            else None
  {
    var s := "<@" + (item + gts + (ws1 + op + (ws2 + desc)));
    assert prefix + "<@" + item + gts + ws1 + op + ws2 + desc == prefix + s;
    SkipPrefix(prefix, s);
    MatchComposed(item, gts, ws1, op, ws2, desc);
  }

  /** A single `+` or `-` after a mention is not a vote. */
  lemma SingleSignIsNotAVote(item: string, sign: string)
    requires |item| > 0 && AllAlnum(item)
    requires sign == "+" || sign == "-"
    ensures ExtractPlusMinusEventData("<@" + item + ">" + sign) == None
  {
    var s := "<@" + item + ">" + sign;
    assert s[2..] == item + (">" + sign);
    SignAfterIdIsNoMatch(item, sign);
    NoMatchAfterFirst(item, sign);
  }

  /** The id, one `>` and a single sign: an operator is missing. */
  lemma SignAfterIdIsNoMatch(item: string, sign: string)
    requires |item| > 0 && AllAlnum(item)
    requires sign == "+" || sign == "-"
    ensures MatchId(item + (">" + sign)) == None
  {
    var t := item + (">" + sign);
    RunOf(item, ">" + sign, IsAlnum);
    assert t[|item|] == '>' && t[..|item|] == item;
    var u := t[|item|..];
    assert u == ">" + sign;
    RunOf(">", sign, IsGt);
    assert u[1..] == sign;
    SignIsNoOperator(item, sign);
  }

  lemma SignIsNoOperator(item: string, sign: string)
    requires |item| > 0 && AllAlnum(item)
    requires sign == "+" || sign == "-"
    ensures MatchOperator(item, sign) == None
  {
    RunOf([], sign, IsWhitespace);
    assert sign[0..] == sign;
    assert OperatorPrefix(sign) == None;
  }

  lemma NoMatchAfterFirst(item: string, sign: string)
    requires AllAlnum(item)
    requires sign == "+" || sign == "-"
    ensures FirstMatch(("<@" + item + ">" + sign)[1..]) == None
  {
    var r := ("<@" + item + ">" + sign)[1..];
    assert r == "@" + item + ">" + sign;
    assert '<' !in r;
    SkipPrefix(r, []);
    assert r + [] == r;
  }

  // ---------------------------------------------------------------------------
  // isPlural, maybeLinkItem, isTimeBasedTokenStillValid

  /** A count takes the plural noun unless it is 1 or -1. */
  function IsPlural(n: int): (r: bool)
    ensures r <==> n != 1 && n != -1
  {
    1 != (if n < 0 then -n else n)
  }

  /** Slack's mention markup for user ids; any other item is left as it is. */
  function MaybeLinkItem(item: string): (r: string)
    ensures IsUser(item) ==> r == "<@" + item + ">"
    ensures !IsUser(item) ==> r == item
  {
    if IsUser(item) then "<@" + item + ">" else item
  }

  /** Linking a user id and appending `++` gives a vote for that very id. */
  lemma LinkedUserVote(item: string)
    requires |item| > 0 && AllAlnum(item) && IsUser(item)
    ensures ExtractPlusMinusEventData(MaybeLinkItem(item) + "++") == Some(PlusMinus(item, "+", None))
  {
    var link := "<@" + item + ">";
    assert MaybeLinkItem(item) == link;
    assert "" + "<@" + item + ">" + "" + "++" + "" + "" == link + "++" by {
      assert "" + "<@" == "<@";
      assert link + "" == link;
      assert link + "++" + "" + "" == link + "++";
    }
    ComposedDirective("", item, ">", "", "++", "", "");
  }

  /** `isTimeBasedTokenStillValid` with the clock `now` and the keyed hash `hash` given:
      a token is accepted for one day from its timestamp, never before it, and only when it
      equals the hash of the timestamp. A zero timestamp inside the window makes the token
      generator throw. */
  function IsTimeBasedTokenStillValid(token: string, ts: int, now: int, hash: int -> string): (r: Result<bool, string>)
    ensures r.Err? <==> ts == 0 && 0 <= now <= TOKEN_TTL
    ensures r.Ok? ==> (r.value <==> ts <= now <= ts + TOKEN_TTL && token == hash(ts))
  {
    if now > ts + TOKEN_TTL then Ok(false)
    else if now < ts then Ok(false)
    else if ts == 0 then Err("Timestamp not provided when getting time-based token.")
    else Ok(hash(ts) == token)
  }
}
