/** The ids a bot gives its orders and cancels, and how the engine's answers find their way back to it. */
module BotIds {
  import opened Types
  import opened Decimals

  const MAX_USIZE: nat := 0xFFFF_FFFF_FFFF_FFFF

  /** A bot's place in the whole fleet, from its pod's index and its index in the pod. */
  function GlobalIndex(podIndex: nat, bots: nat, bot: nat): nat {
    podIndex * bots + bot
  }

  datatype Kind = Place | Cancel

  /** Ids number bots from one. */
  function ClientOrderId(kind: Kind, bot: nat, seqNo: nat): string {
    match kind
    case Place => "bot_" + Decimal(bot + 1) + "_" + Padded(seqNo, 6)
    case Cancel => "bot_" + Decimal(bot + 1) + "_c" + Padded(seqNo, 6)
  }

  // ----- reading the bot out of an id -----

  /** A machine word as the source parses it: digits after at most one plus sign, in range. */
  function ParseUsize(s: string): Option<nat> {
    var digits := if s != [] && s[0] == '+' then s[1..] else s;
    if digits != [] && AllDigits(digits) && Value(digits) <= MAX_USIZE then Some(Value(digits)) else None
  }

  /** The first position of a character, or the length when it does not occur. */
  function Find(s: string, c: char): (i: nat)
    ensures i <= |s|
    ensures i < |s| ==> s[i] == c
    ensures forall k :: 0 <= k < i ==> s[k] != c
  {
    if s == [] then 0
    else if s[0] == c then 0
    else Find(s[1..], c) + 1
  }

  function ParseBotIndex(id: string): Option<nat> {
    if !("bot_" <= id) then None
    else
      var rest := id[4..];
      var underscore := Find(rest, '_');
      if underscore == |rest| then None
      else
        match ParseUsize(rest[..underscore])
        case None => None
        case Some(n) => if n == 0 then None else Some(n - 1)
  }

  /**
   The bot is read from an id exactly when the id is the prefix, a numeral from one
   to the largest machine word with or without a plus sign, and an underscore that
   anything may follow.
   */
  lemma ParsedIff(id: string, bot: nat)
    ensures ParseBotIndex(id) == Some(bot) <==> exists sign, digits, tail ::
      IsBotId(id, sign, digits, tail) && Value(digits) == bot + 1 <= 0xFFFF_FFFF_FFFF_FFFF
  {
    if ParseBotIndex(id) == Some(bot) {
      var sign, digits, tail := Parsed(id, bot);
    }
    if sign, digits, tail :| IsBotId(id, sign, digits, tail) && Value(digits) == bot + 1 <= 0xFFFF_FFFF_FFFF_FFFF {
      Parses(id, bot, sign, digits, tail);
    }
    hide Value, Find, ParseBotIndex, IsBotId;
  }

  lemma Parsed(id: string, bot: nat) returns (sign: string, digits: string, tail: string)
    requires ParseBotIndex(id) == Some(bot)
    ensures IsBotId(id, sign, digits, tail) && Value(digits) == bot + 1 <= 0xFFFF_FFFF_FFFF_FFFF
  {
    hide Value, Find;
    var rest := id[4..];
    var numeral := rest[..Find(rest, '_')];
    sign, digits := if numeral[0] == '+' then "+" else "", if numeral[0] == '+' then numeral[1..] else numeral;
    tail := rest[|numeral| + 1..];
    assert numeral == sign + digits && rest == numeral + "_" + tail;
  }

  lemma NumeralParses(sign: string, digits: string)
    requires (sign == "" || sign == "+") && digits != "" && AllDigits(digits) && Value(digits) <= MAX_USIZE
    ensures ParseUsize(sign + digits) == Some(Value(digits))
  {
    hide Value;
    var numeral := sign + digits;
    assert numeral[0] == if sign == "+" then '+' else digits[0];
    if sign == "+" { assert numeral[1..] == digits; } else { assert numeral == digits; }
  }

  lemma NoUnderscore(sign: string, digits: string)
    requires (sign == "" || sign == "+") && AllDigits(digits)
    ensures forall k :: 0 <= k < |sign + digits| ==> (sign + digits)[k] != '_'
  {
  }

  lemma ReadsNumeral(id: string, numeral: string, n: nat)
    requires "bot_" <= id && Find(id[4..], '_') == |numeral| < |id[4..]| && id[4..][..|numeral|] == numeral
    requires ParseUsize(numeral) == Some(n)
    ensures ParseBotIndex(id) == if n == 0 then None else Some(n - 1)
  {
    hide Find, ParseUsize;
  }

  lemma Parses(id: string, bot: nat, sign: string, digits: string, tail: string)
    requires IsBotId(id, sign, digits, tail) && Value(digits) == bot + 1 <= 0xFFFF_FFFF_FFFF_FFFF
    ensures ParseBotIndex(id) == Some(bot)
  {
    NumeralParses(sign, digits);
    NoUnderscore(sign, digits);
    hide Value, Find, ParseUsize, ParseBotIndex;
    var numeral := sign + digits;
    AfterPrefix(id, numeral + "_" + tail);
    EndsAtUnderscore(numeral, tail);
    ReadsNumeral(id, numeral, bot + 1);
  }

  ghost predicate IsBotId(id: string, sign: string, digits: string, tail: string) {
    (sign == "" || sign == "+") && digits != "" && AllDigits(digits) && id == "bot_" + (sign + digits + "_" + tail)
  }

  lemma EndsAtUnderscore(numeral: string, tail: string)
    requires forall k :: 0 <= k < |numeral| ==> numeral[k] != '_'
    ensures var rest := numeral + "_" + tail; Find(rest, '_') == |numeral| && rest[..|numeral|] == numeral
  {
    var rest := numeral + "_" + tail;
    assert rest[|numeral|] == '_';
    assert forall k :: 0 <= k < |numeral| ==> rest[k] == numeral[k];
    hide Find;
  }

  lemma FiveZeros()
    ensures Zeros(4) == "0000" && Zeros(5) == "00000"
  {
    assert Zeros(2) == "00" && Zeros(3) == "000";
  }

  lemma SixDigits()
    ensures Padded(1, 6) == "000001" && Padded(42, 6) == "000042"
  {
    hide Zeros, Decimal;
    SmallNumerals();
    FiveZeros();
  }

  lemma SmallNumerals()
    ensures Decimal(1) == "1" && Decimal(12) == "12" && Decimal(42) == "42"
  {
  }

  /** The first order of the first bot, and a cancel of the twelfth. */
  lemma FirstIds()
    ensures ClientOrderId(Place, 0, 1) == "bot_1_000001"
    ensures ClientOrderId(Cancel, 11, 42) == "bot_12_c000042"
  {
    hide Padded, Decimal;
    SixDigits();
    SmallNumerals();
  }

  /** What follows the second underscore of an id. */
  function Tail(kind: Kind, seqNo: nat): string {
    if kind.Cancel? then "c" + Padded(seqNo, 6) else Padded(seqNo, 6)
  }

  lemma Shape(kind: Kind, bot: nat, seqNo: nat)
    ensures ClientOrderId(kind, bot, seqNo) == "bot_" + (Decimal(bot + 1) + "_" + Tail(kind, seqNo))
  {
    hide Padded, Decimal;
    var n, p := Decimal(bot + 1), Padded(seqNo, 6);
    if kind.Cancel? {
      assert "_c" + p == "_" + ("c" + p);
    }
  }

  lemma AfterPrefix(id: string, rest: string)
    requires id == "bot_" + rest
    ensures "bot_" <= id && id[4..] == rest
  {
  }

  /** The digits of the bot in an id end at the second underscore. */
  lemma PartsOf(kind: Kind, bot: nat, seqNo: nat)
    ensures (var id, n, t := ClientOrderId(kind, bot, seqNo), Decimal(bot + 1), Tail(kind, seqNo);
             && "bot_" <= id
             && id[4..] == n + "_" + t
             && Find(id[4..], '_') == |n| < |id[4..]|
             && id[4..][..|n|] == n && id[4..][|n| + 1..] == t)
  {
    hide ClientOrderId, Tail, Decimal, Find;
    Shape(kind, bot, seqNo);
    AfterPrefix(ClientOrderId(kind, bot, seqNo), Decimal(bot + 1) + "_" + Tail(kind, seqNo));
    FirstUnderscore(Decimal(bot + 1), Tail(kind, seqNo));
  }

  lemma FirstUnderscore(n: string, tail: string)
    requires AllDigits(n)
    ensures (var rest := n + "_" + tail;
             Find(rest, '_') == |n| && rest[..|n|] == n && rest[|n| + 1..] == tail)
  {
    var rest := n + "_" + tail;
    assert rest[|n|] == '_';
    assert forall k :: 0 <= k < |n| ==> rest[k] == n[k];
    hide Find;
  }

  /** The bot is recovered from every id it generates. */
  lemma BotIsRecovered(kind: Kind, bot: nat, seqNo: nat)
    requires bot + 1 <= MAX_USIZE
    ensures ParseBotIndex(ClientOrderId(kind, bot, seqNo)) == Some(bot)
  {
    hide Find, ClientOrderId, Padded;
    PartsOf(kind, bot, seqNo);
    DecimalValue(bot + 1);
    assert IsDigit(Decimal(bot + 1)[0]);
  }

  /** No two ids of a fleet are equal: the bot, the number and whether it is a cancel can be told from the id. */
  lemma IdsAreUnique(a: Kind, bot: nat, seqNo: nat, b: Kind, bot': nat, seqNo': nat)
    requires ClientOrderId(a, bot, seqNo) == ClientOrderId(b, bot', seqNo')
    ensures a == b && bot == bot' && seqNo == seqNo'
  {
    hide Find, ClientOrderId, Decimal, Tail, Value;
    PartsOf(a, bot, seqNo);
    PartsOf(b, bot', seqNo');
    DecimalValue(bot + 1);
    DecimalValue(bot' + 1);
    TailsAreUnique(a, seqNo, b, seqNo');
  }

  lemma TailsAreUnique(a: Kind, n: nat, b: Kind, m: nat)
    requires Tail(a, n) == Tail(b, m)
    ensures a == b && n == m
  {
    hide Padded, Value;
    var x, y := Tail(a, n), Tail(b, m);
    var p, q := Padded(n, 6), Padded(m, 6);
    assert IsDigit(p[0]) && IsDigit(q[0]);
    assert x[0] == if a.Cancel? then 'c' else p[0];
    assert y[0] == if b.Cancel? then 'c' else q[0];
    assert a.Cancel? ==> x[1..] == p;
    assert b.Cancel? ==> y[1..] == q;
    PaddedValue(n, 6);
    PaddedValue(m, 6);
  }

  // ----- routing an answer -----

  datatype Message =
    | Ack(clientOrderId: Option<string>)
    | Fill(buyOrderId: Option<string>, sellOrderId: Option<string>)
    | Other

  /** This pod's index of the bot an id names, if it is not below the pod's first bot. */
  function Local(id: Option<string>, podOffset: nat): Option<nat> {
    if id.None? then None
    else
      match ParseBotIndex(id.value)
      case None => None
      case Some(global) => if global < podOffset then None else Some(global - podOffset)
  }

  function RecipientBots(m: Message, podOffset: nat): seq<nat> {
    match m
    case Ack(id) =>
      (match Local(id, podOffset)
       case Some(i) => [i]
       case None => [])
    case Fill(buyId, sellId) =>
      var buy, sell := Local(buyId, podOffset), Local(sellId, podOffset);
      var out := if buy.Some? then [buy.value] else [];
      if sell.Some? && sell.value !in out then out + [sell.value] else out
    case Other => []
  }

  /** The inboxes of a pod that get the message: indices of bots the pod runs. */
  function Delivered(m: Message, podIndex: nat, bots: nat): seq<nat> {
    InRange(RecipientBots(m, podIndex * bots), bots)
  }

  function InRange(s: seq<nat>, n: nat): (r: seq<nat>)
    ensures forall x :: x in r <==> x in s && x < n
  {
    if s == [] then []
    else
      assert s == s[..|s| - 1] + [s[|s| - 1]];
      InRange(s[..|s| - 1], n) + if s[|s| - 1] < n then [s[|s| - 1]] else []
  }

  /** The bots a message concerns, anywhere in the fleet. */
  predicate Names(m: Message, global: nat) {
    match m
    case Ack(id) => id.Some? && ParseBotIndex(id.value) == Some(global)
    case Fill(buy, sell) =>
      (buy.Some? && ParseBotIndex(buy.value) == Some(global)) || (sell.Some? && ParseBotIndex(sell.value) == Some(global))
    case Other => false
  }

  lemma LocalIs(id: Option<string>, podOffset: nat, i: nat)
    ensures Local(id, podOffset) == Some(i) <==> id.Some? && ParseBotIndex(id.value) == Some(podOffset + i)
  {
  }

  /** A pod delivers to exactly those of its bots that the message names. */
  lemma DeliveredIffNamed(m: Message, podIndex: nat, bots: nat, bot: nat)
    ensures bot in Delivered(m, podIndex, bots) <==> bot < bots && Names(m, GlobalIndex(podIndex, bots, bot))
  {
    hide ParseBotIndex;
    var offset := podIndex * bots;
    match m {
      case Ack(id) => LocalIs(id, offset, bot);
      case Fill(buy, sell) =>
        LocalIs(buy, offset, bot);
        LocalIs(sell, offset, bot);
      case Other =>
    }
  }

  /** No inbox gets a message twice, even when both sides of a fill are the same bot. */
  lemma NoRecipientTwice(m: Message, podIndex: nat, bots: nat)
    ensures forall i, j :: 0 <= i < j < |Delivered(m, podIndex, bots)|
                           ==> Delivered(m, podIndex, bots)[i] != Delivered(m, podIndex, bots)[j]
  {
    hide Local;
    var s := RecipientBots(m, podIndex * bots);
    assert |s| <= 2 && (|s| == 2 ==> s[0] != s[1]);
    InRangeOfTwo(s, bots);
  }

  lemma InRangeOfTwo(s: seq<nat>, n: nat)
    requires |s| <= 2 && (|s| == 2 ==> s[0] != s[1])
    ensures |InRange(s, n)| <= 2
    ensures |InRange(s, n)| == 2 ==> InRange(s, n)[0] != InRange(s, n)[1]
  {
    if |s| > 0 {
      var p := s[..|s| - 1];
      if |p| > 0 {
        assert p[..|p| - 1] == [];
        assert InRange(p, n) == if p[0] < n then [p[0]] else [];
      }
    }
  }

  /** With equal windows a bot of the fleet has one pod and one index in it. */
  lemma OneHome(bots: nat, pod: nat, bot: nat, pod': nat, bot': nat)
    requires bot < bots && bot' < bots && GlobalIndex(pod, bots, bot) == GlobalIndex(pod', bots, bot')
    ensures pod == pod' && bot == bot'
  {
    if pod < pod' {
      LaterWindow(bots, pod, bot, pod', bot');
    } else if pod' < pod {
      LaterWindow(bots, pod', bot', pod, bot);
    }
  }

  lemma LaterWindow(bots: nat, pod: nat, bot: nat, pod': nat, bot': nat)
    requires pod < pod' && bot < bots
    ensures GlobalIndex(pod, bots, bot) < GlobalIndex(pod', bots, bot')
  {
    Windows(bots, pod + 1, pod');
    WindowEnd(bots, pod);
  }

  lemma Windows(bots: nat, p: nat, q: nat)
    requires p <= q
    ensures p * bots <= q * bots
  {
  }

  lemma WindowEnd(bots: nat, p: nat)
    ensures (p + 1) * bots == p * bots + bots
  {
  }

  /** A fill reaches its buyer and its seller, each in the one inbox of the one pod that runs it, and nobody else. */
  lemma FillFindsBothBots(bots: nat, buyPod: nat, buyer: nat, sellPod: nat, seller: nat, buySeq: nat, sellSeq: nat, atPod: nat, inbox: nat)
    requires buyer < bots && GlobalIndex(buyPod, bots, buyer) + 1 <= MAX_USIZE
    requires seller < bots && GlobalIndex(sellPod, bots, seller) + 1 <= MAX_USIZE
    ensures (var m := Message.Fill(Some(ClientOrderId(Place, GlobalIndex(buyPod, bots, buyer), buySeq)),
                                   Some(ClientOrderId(Place, GlobalIndex(sellPod, bots, seller), sellSeq)));
             inbox in Delivered(m, atPod, bots)
             <==> (atPod == buyPod && inbox == buyer) || (atPod == sellPod && inbox == seller))
  {
    hide ParseBotIndex, ClientOrderId, Delivered;
    var b, s := GlobalIndex(buyPod, bots, buyer), GlobalIndex(sellPod, bots, seller);
    BotIsRecovered(Place, b, buySeq);
    BotIsRecovered(Place, s, sellSeq);
    DeliveredIffNamed(Message.Fill(Some(ClientOrderId(Place, b, buySeq)), Some(ClientOrderId(Place, s, sellSeq))), atPod, bots, inbox);
    if inbox < bots {
      if GlobalIndex(atPod, bots, inbox) == b {
        OneHome(bots, atPod, inbox, buyPod, buyer);
      }
      if GlobalIndex(atPod, bots, inbox) == s {
        OneHome(bots, atPod, inbox, sellPod, seller);
      }
    }
  }

  /** An answer to a bot's own request reaches that bot and no other. */
  lemma AckFindsItsBot(kind: Kind, pod: nat, bots: nat, bot: nat, seqNo: nat, atPod: nat, inbox: nat)
    requires bot < bots && GlobalIndex(pod, bots, bot) + 1 <= MAX_USIZE
    ensures (var m := Message.Ack(Some(ClientOrderId(kind, GlobalIndex(pod, bots, bot), seqNo)));
             inbox in Delivered(m, atPod, bots) <==> atPod == pod && inbox == bot)
  {
    hide ParseBotIndex, ClientOrderId, Delivered;
    var g := GlobalIndex(pod, bots, bot);
    BotIsRecovered(kind, g, seqNo);
    DeliveredIffNamed(Message.Ack(Some(ClientOrderId(kind, g, seqNo))), atPod, bots, inbox);
    if inbox < bots && GlobalIndex(atPod, bots, inbox) == g {
      OneHome(bots, atPod, inbox, pod, bot);
    }
  }
}
