/** The loss classifier of scripts/categorize_losses.py. */
module LossClassifier {
  import opened Wrappers
  import opened Reals
  import opened Texts

  /** A JSON value; `number` is what reading the text as a finite number gives. */
  datatype Value =
    | Null
    | Bool(b: bool)
    | Num(x: real)
    | Text(text: string, number: Option<real>)
    | List(size: nat)
    | Object(size: nat)

  type Trade = map<string, Value>

  datatype Category =
    | BadEntry
    | StopPlacement
    | WrongDirection
    | NewsEvent
    | SpreadWidening
    | Slippage
    | LateExit
    | Other

  /** What a heuristic does with a trade: nothing, fire with a confidence, or raise on an unreadable number. */
  datatype Verdict = Silent | Fires(confidence: real) | Raises

  datatype Answer = Answer(category: Category, confidence: real)

  const BASE := 0.45
  const BONUS := 0.35
  const FLOOR := 0.4

  /** The heuristics in priority order. */
  const PRIORITY: seq<Category> :=
    [BadEntry, StopPlacement, WrongDirection, NewsEvent, SpreadWidening, Slippage, LateExit]

  // ----- fields ----------------------------------------------------------------------------------

  function Get(t: Trade, name: string): Value {
    if name in t then t[name] else Null
  }

  function Number(v: Value): Option<real> {
    match v
    case Null => None
    case Bool(b) => Some(if b then 1.0 else 0.0)
    case Num(x) => Some(x)
    case Text(_, n) => n
    case _ => None
  }

  function ToFloat(v: Value): real {
    match Number(v)
    case None => 0.0
    case Some(x) => x
  }

  predicate Truthy(v: Value) {
    match v
    case Null => false
    case Bool(b) => b
    case Num(x) => x != 0.0
    case Text(s, _) => s != ""
    case List(n) => n > 0
    case Object(n) => n > 0
  }

  /** Python's `a or b`. */
  function Either(a: Value, b: Value): Value {
    if Truthy(a) then a else b
  }

  function LowerChar(c: char): char {
    if 'A' <= c <= 'Z' then c - 'A' + 'a' else c
  }

  function Lower(s: string): string {
    seq(|s|, i requires 0 <= i < |s| => LowerChar(s[i]))
  }

  function Word(v: Value): string {
    if v.Text? then Lower(v.text) else ""
  }

  function Strip(s: string): string {
    if s != "" && IsSpace(s[0]) then Strip(s[1..])
    else if s != "" && IsSpace(s[|s| - 1]) then Strip(s[..|s| - 1])
    else s
  }

  predicate ToBool(v: Value) {
    match v
    case Bool(b) => b
    case Text(s, _) => Lower(Strip(s)) in {"1", "true", "yes", "y"}
    case Num(x) => x != 0.0
    case _ => false
  }

  function PipSize(price: real): (pip: real)
    ensures pip > 0.0
  {
    if price >= 50.0 then 0.01 else if price >= 1.0 then 0.0001 else 0.00000001
  }

  predicate IsLoss(t: Trade) {
    var outcome := Get(t, "outcome");
    if outcome.Text? then Lower(outcome.text) == "loss"
    else
      var pnl :=
        if "profit_loss" in t then Number(t["profit_loss"])
        else if "pnl" in t then Number(t["pnl"])
        else Some(0.0);
      pnl.Some? && pnl.value < -0.01
  }

  // ----- the seven heuristics --------------------------------------------------------------------

  function Fire(weight: real): Verdict {
    Fires(Min(1.0, BASE + BONUS * weight))
  }

  /** The session mean: given, or the midpoint of a readable session range. */
  function Mean(t: Trade): Value {
    var high, low := Get(t, "session_high"), Get(t, "session_low");
    if !Get(t, "session_mean").Null? then Get(t, "session_mean")
    else if Number(high).Some? && Number(low).Some? then Num((Number(high).value + Number(low).value) / 2.0)
    else Null
  }

  function JudgeBadEntry(t: Trade): Verdict {
    var entry := ToFloat(Get(t, "entry_price"));
    var sigma := if !Get(t, "session_std").Null? then ToFloat(Get(t, "session_std")) else ToFloat(Get(t, "atr"));
    var mean := Mean(t);
    if entry == 0.0 || sigma <= 0.0 || mean.Null? then Silent
    else if Number(mean).None? then Raises
    else
      var pip := PipSize(entry);
      var sigmaPips := sigma / pip;
      if sigmaPips <= 0.0 then Silent
      else if Abs(entry - Number(mean).value) / pip / sigmaPips >= 1.5 then Fire(1.0)
      else Silent
  }

  function JudgeStopPlacement(t: Trade): Verdict {
    var entry, sl, atr := ToFloat(Get(t, "entry_price")), ToFloat(Get(t, "stop_loss")), ToFloat(Get(t, "atr"));
    if entry == 0.0 || sl == 0.0 || atr <= 0.0 then Silent
    else
      var pip := PipSize(entry);
      var atrPips := atr / pip;
      if atrPips <= 0.0 then Silent
      else if Abs(entry - sl) / pip / atrPips <= 1.0 then Fire(1.0)
      else Silent
  }

  function JudgeWrongDirection(t: Trade): Verdict {
    var direction := Word(Get(t, "direction"));
    var trend := Either(Get(t, "h4_trend"), Get(t, "ema_h4_trend"));
    var ema := Either(Get(t, "h4_ema"), Get(t, "ema_h4_value"));
    var entry := ToFloat(Get(t, "entry_price"));
    if direction !in {"long", "short"} then Silent
    else if !trend.Null? then
      if Word(trend) !in {"long", "short", "bullish", "bearish"} then Silent
      else if (if Word(trend) in {"long", "bullish"} then "long" else "short") == direction then Silent
      else if ema.Null? then Fire(0.5)
      else if Number(ema).None? then Raises
      else Fire(1.0)
    else if !ema.Null? && entry != 0.0 && Number(ema).Some? then
      var against := if direction == "long" then entry < Number(ema).value else entry > Number(ema).value;
      if against then Fire(0.6) else Silent
    else Silent
  }

  function JudgeNewsEvent(t: Trade): Verdict {
    var list := Get(t, "news_events");
    if ToBool(Get(t, "news_event")) then Fire(1.0)
    else if list.List? && list.size > 0 then Fire(0.7)
    else Silent
  }

  function JudgeSpreadWidening(t: Trade): Verdict {
    var spread := ToFloat(Either(Get(t, "spread_at_entry"), Get(t, "spread_pips")));
    var rolling := ToFloat(Get(t, "spread_avg_rolling"));
    if spread <= 0.0 || rolling <= 0.0 then Silent
    else
      var ratio := spread / rolling;
      if ratio >= 2.0 then Fires(Min(1.0, BASE + Min(BONUS, BONUS * (ratio / 4.0)))) else Silent
  }

  /** The price the exit should have had; zero stands for none, as the source treats both alike. */
  function Expected(t: Trade): real {
    var reason := Word(Get(t, "exit_reason"));
    if reason in {"sl", "stop_loss"} then ToFloat(Get(t, "stop_loss"))
    else if reason == "tp1" then ToFloat(Get(t, "take_profit_1"))
    else if reason == "tp2" then ToFloat(Get(t, "take_profit_2"))
    else if reason == "tp3" then ToFloat(Get(t, "take_profit_3"))
    else 0.0
  }

  function JudgeSlippage(t: Trade): Verdict {
    var entry, exit, expected := ToFloat(Get(t, "entry_price")), ToFloat(Get(t, "exit_price")), Expected(t);
    if entry == 0.0 || exit == 0.0 || expected == 0.0 then Silent
    else if Abs(exit - expected) / PipSize(entry) < 1.0 then Silent
    else Fire(0.8)
  }

  function JudgeLateExit(t: Trade): Verdict {
    if !ToBool(Get(t, "partial_closed")) || ToFloat(Get(t, "partial_close_pnl")) <= 0.0 then Silent
    else if ToFloat(Get(t, "profit_loss")) >= -0.01 then Silent
    else Fire(0.6)
  }

  function Judge(c: Category, t: Trade): Verdict {
    match c
    case BadEntry => JudgeBadEntry(t)
    case StopPlacement => JudgeStopPlacement(t)
    case WrongDirection => JudgeWrongDirection(t)
    case NewsEvent => JudgeNewsEvent(t)
    case SpreadWidening => JudgeSpreadWidening(t)
    case Slippage => JudgeSlippage(t)
    case LateExit => JudgeLateExit(t)
    case Other => Silent
  }

  /** Every confidence lies between 0.625 and 0.8; so the floor of 0.4 never rejects anything. */
  lemma ConfidenceRange(c: Category, t: Trade)
    ensures Judge(c, t).Fires? ==> 0.625 <= Judge(c, t).confidence <= 0.8
  {
    hide Get, Number, ToFloat, Truthy, Word, ToBool, PipSize, Mean, Expected, Either;
    if c == SpreadWidening {
      var spread := ToFloat(Either(Get(t, "spread_at_entry"), Get(t, "spread_pips")));
      var rolling := ToFloat(Get(t, "spread_avg_rolling"));
      if spread > 0.0 && rolling > 0.0 && spread / rolling >= 2.0 {
        assert BONUS * (spread / rolling / 4.0) >= 0.175;
      }
    }
  }

  // ----- what each heuristic asks of the numbers ---------------------------------------------------

  /** The value reads as the number `x`. */
  predicate ReadsAs(v: Value, x: real) {
    v == Num(x) || (v.Bool? && x == (if v.b then 1.0 else 0.0)) || (v.Text? && v.number == Some(x))
  }

  /** The field of a trade taken as a number: 0 when it is missing or reads as none. */
  ghost predicate FieldIs(t: Trade, name: string, x: real) {
    if exists y :: Reads(t, name, y) then Reads(t, name, x) else x == 0.0
  }

  predicate Reads(t: Trade, name: string, x: real) {
    name in t && ReadsAs(t[name], x)
  }

  predicate Missing(t: Trade, name: string) {
    name !in t || t[name] == Null
  }

  lemma NumberIs(v: Value, x: real)
    ensures ReadsAs(v, x) <==> Number(v) == Some(x)
  {
  }

  lemma FieldIsNumber(t: Trade, name: string, x: real)
    ensures FieldIs(t, name, x) <==> ToFloat(Get(t, name)) == x
    ensures Reads(t, name, x) <==> Number(Get(t, name)) == Some(x)
    ensures Missing(t, name) <==> Get(t, name).Null?
  {
    var n := Number(Get(t, name));
    forall y ensures Reads(t, name, y) <==> n == Some(y) {
      if name in t {
        NumberIs(t[name], y);
      }
    }
    hide ReadsAs;
    if n.Some? {
      assert Reads(t, name, n.value);
    }
  }

  function Distance(x: real, y: real): real {
    if x >= y then x - y else y - x
  }

  /** Entry, spread of the session and its mean, as the first heuristic reads them. */
  ghost predicate SessionIs(t: Trade, sigma: real) {
    if Missing(t, "session_std") then FieldIs(t, "atr", sigma) else FieldIs(t, "session_std", sigma)
  }

  ghost predicate MeanIs(t: Trade, mean: real) {
    if Missing(t, "session_mean") then
      exists high, low :: Reads(t, "session_high", high) && Reads(t, "session_low", low) && mean == (high + low) / 2.0
    else Reads(t, "session_mean", mean)
  }

  lemma MeanIsRead(t: Trade, mean: real)
    ensures MeanIs(t, mean) <==> Number(Mean(t)) == Some(mean)
    ensures Mean(t).Null? <==>
              Missing(t, "session_mean") &&
              !(exists high, low :: Reads(t, "session_high", high) && Reads(t, "session_low", low))
  {
    FieldIsNumber(t, "session_mean", mean);
    var high, low := Number(Get(t, "session_high")), Number(Get(t, "session_low"));
    forall x ensures Reads(t, "session_high", x) <==> high == Some(x) {
      FieldIsNumber(t, "session_high", x);
    }
    forall x ensures Reads(t, "session_low", x) <==> low == Some(x) {
      FieldIsNumber(t, "session_low", x);
    }
    hide Reads, Missing;
    if high.Some? && low.Some? {
      assert Reads(t, "session_high", high.value) && Reads(t, "session_low", low.value);
    }
  }

  /** A bad entry lies at least one and a half times the session's spread off its mean; the pip size does not matter. */
  lemma BadEntryExactlyWhen(t: Trade, entry: real, sigma: real, mean: real)
    requires FieldIs(t, "entry_price", entry) && SessionIs(t, sigma) && MeanIs(t, mean)
    ensures Judge(BadEntry, t)
         == if entry != 0.0 && sigma > 0.0 && Distance(entry, mean) >= 1.5 * sigma then Fires(0.8) else Silent
  {
    FieldIsNumber(t, "entry_price", entry);
    FieldIsNumber(t, "session_std", sigma);
    FieldIsNumber(t, "atr", sigma);
    MeanIsRead(t, mean);
    hide Get, ToFloat, Mean, FieldIs, Reads, Missing, MeanIs, PipSize;
    assert Fire(1.0) == Fires(0.8);
    var pip := PipSize(entry);
    if sigma > 0.0 {
      PipsCancel(Abs(entry - mean), sigma, pip, 1.5);
    }
  }

  /** Without a readable mean it says nothing, unless a mean is given that reads as no number: then it raises. */
  lemma BadEntryRaisesExactlyWhen(t: Trade)
    ensures Judge(BadEntry, t).Raises? <==>
              && (exists entry :: FieldIs(t, "entry_price", entry) && entry != 0.0)
              && (exists sigma :: SessionIs(t, sigma) && sigma > 0.0)
              && !Missing(t, "session_mean") && !(exists mean :: MeanIs(t, mean))
  {
    var entry := ToFloat(Get(t, "entry_price"));
    var sigma := ToFloat(Get(t, if Get(t, "session_std").Null? then "atr" else "session_std"));
    forall x ensures FieldIs(t, "entry_price", x) <==> x == entry {
      FieldIsNumber(t, "entry_price", x);
    }
    forall x ensures SessionIs(t, x) <==> x == sigma {
      FieldIsNumber(t, "session_std", x);
      FieldIsNumber(t, "atr", x);
    }
    var mean := Mean(t);
    forall x ensures MeanIs(t, x) <==> Number(mean) == Some(x) {
      MeanIsRead(t, x);
    }
    MeanIsRead(t, 0.0);
    FieldIsNumber(t, "session_mean", 0.0);
    hide Get, ToFloat, FieldIs, Reads, Missing, MeanIs, SessionIs, Fire, PipSize;
    if Number(mean).Some? {
      assert MeanIs(t, Number(mean).value);
    }
    assert FieldIs(t, "entry_price", entry) && SessionIs(t, sigma);
    if sigma > 0.0 {
      Quotient(sigma, PipSize(entry));
    }
    MeanOfNull(t);
  }

  lemma MeanOfNull(t: Trade)
    ensures Mean(t).Null? ==> Number(Mean(t)).None?
    ensures Missing(t, "session_mean") && !Mean(t).Null? ==> Number(Mean(t)).Some?
  {
  }

  lemma Quotient(x: real, pip: real)
    requires x > 0.0 && pip > 0.0
    ensures x / pip > 0.0
  {
    assert x / pip * pip == x;
  }

  /** A bound on a quotient of two prices in pips is a bound on the prices. */
  lemma PipsCancel(x: real, y: real, pip: real, k: real)
    requires y > 0.0 && pip > 0.0
    ensures y / pip > 0.0
    ensures x / pip / (y / pip) >= k <==> x >= k * y
    ensures x / pip / (y / pip) <= k <==> x <= k * y
  {
    var a, b := x / pip, y / pip;
    Quotient(y, pip);
    var q := a / b;
    assert a * pip == x && b * pip == y && q * b == a;
    ProductOrder(q, k, y, b, pip, x);
  }

  lemma ProductOrder(q: real, k: real, y: real, b: real, pip: real, x: real)
    requires y > 0.0 && b * pip == y && q * b * pip == x
    ensures q >= k <==> x >= k * y
    ensures q <= k <==> x <= k * y
  {
    assert x == q * y;
    if q > k { assert (q - k) * y > 0.0; }
    if q < k { assert (k - q) * y > 0.0; }
  }

  /** A stop is too tight when it lies within one average range of the entry. */
  lemma StopPlacementExactlyWhen(t: Trade, entry: real, stop: real, atr: real)
    requires FieldIs(t, "entry_price", entry) && FieldIs(t, "stop_loss", stop) && FieldIs(t, "atr", atr)
    ensures Judge(StopPlacement, t)
         == if entry != 0.0 && stop != 0.0 && atr > 0.0 && Distance(entry, stop) <= atr then Fires(0.8) else Silent
  {
    FieldIsNumber(t, "entry_price", entry);
    FieldIsNumber(t, "stop_loss", stop);
    FieldIsNumber(t, "atr", atr);
    hide Get, ToFloat, FieldIs, PipSize;
    assert Fire(1.0) == Fires(0.8);
    if atr > 0.0 {
      PipsCancel(Abs(entry - stop), atr, PipSize(entry), 1.0);
    }
  }

  /** A spread counts as widened from twice its rolling average on, the more the wider, up to four times. */
  lemma SpreadWideningExactlyWhen(t: Trade, spread: real, rolling: real)
    requires FieldIs(t, "spread_avg_rolling", rolling)
    requires if Truthy(Get(t, "spread_at_entry")) then FieldIs(t, "spread_at_entry", spread)
             else FieldIs(t, "spread_pips", spread)
    ensures Judge(SpreadWidening, t)
         == if spread <= 0.0 || rolling <= 0.0 || spread < 2.0 * rolling then Silent
            else if spread < 4.0 * rolling then Fires(0.45 + 0.0875 * (spread / rolling))
            else Fires(0.8)
  {
    SpreadVerdict(t, spread, rolling);
    hide *;
    if rolling > 0.0 {
      QuotientOrder(spread, rolling, 2.0);
      QuotientOrder(spread, rolling, 4.0);
      WideConfidence(spread / rolling);
    }
  }

  lemma QuotientOrder(x: real, y: real, k: real)
    requires y > 0.0
    ensures x / y >= k <==> x >= k * y
  {
    assert x / y * y == x;
    RatioOrder(x / y, y, k);
  }

  function Widening(ratio: real): real {
    Min(1.0, BASE + Min(BONUS, BONUS * (ratio / 4.0)))
  }

  lemma SpreadVerdict(t: Trade, spread: real, rolling: real)
    requires FieldIs(t, "spread_avg_rolling", rolling)
    requires if Truthy(Get(t, "spread_at_entry")) then FieldIs(t, "spread_at_entry", spread)
             else FieldIs(t, "spread_pips", spread)
    ensures Judge(SpreadWidening, t)
         == if spread <= 0.0 || rolling <= 0.0 then Silent
            else if spread / rolling >= 2.0 then Fires(Widening(spread / rolling))
            else Silent
  {
    FieldIsNumber(t, "spread_avg_rolling", rolling);
    FieldIsNumber(t, "spread_at_entry", spread);
    FieldIsNumber(t, "spread_pips", spread);
    hide Get, ToFloat, FieldIs, Truthy, Min;
  }

  lemma RatioOrder(ratio: real, rolling: real, k: real)
    requires rolling > 0.0
    ensures ratio >= k <==> ratio * rolling >= k * rolling
  {
    if ratio < k { assert (k - ratio) * rolling > 0.0; }
    if ratio > k { assert (ratio - k) * rolling > 0.0; }
  }

  lemma WideConfidence(ratio: real)
    ensures Widening(ratio) == if ratio >= 4.0 then 0.8 else 0.45 + 0.0875 * ratio
  {
    assert BONUS * (ratio / 4.0) == 0.0875 * ratio;
  }

  /** Slippage is an exit at least one pip off the price its reason names: a hundredth from 50 on, a ten-thousandth
      from 1 on, a hundred-millionth below. */
  lemma SlippageExactlyWhen(t: Trade, entry: real, exit: real, expected: real)
    requires FieldIs(t, "entry_price", entry) && FieldIs(t, "exit_price", exit) && ExpectedIs(t, expected)
    ensures var pip := if entry >= 50.0 then 0.01 else if entry >= 1.0 then 0.0001 else 0.00000001;
            Judge(Slippage, t) == (
              if entry != 0.0 && exit != 0.0 && expected != 0.0 && Distance(exit, expected) >= pip then Fires(0.73)
              else Silent)
  {
    FieldIsNumber(t, "entry_price", entry);
    FieldIsNumber(t, "exit_price", exit);
    ExpectedIsRead(t, expected);
    hide Get, ToFloat, FieldIs, Expected;
    assert Fire(0.8) == Fires(0.73);
    var pip := PipSize(entry);
    var x := Abs(exit - expected);
    assert x / pip * pip == x;
    RatioOrder(x / pip, pip, 1.0);
  }

  /** The price that the exit's reason names, 0 for none. */
  ghost predicate ExpectedIs(t: Trade, expected: real) {
    var reason := Word(Get(t, "exit_reason"));
    if reason == "sl" || reason == "stop_loss" then FieldIs(t, "stop_loss", expected)
    else if reason == "tp1" then FieldIs(t, "take_profit_1", expected)
    else if reason == "tp2" then FieldIs(t, "take_profit_2", expected)
    else if reason == "tp3" then FieldIs(t, "take_profit_3", expected)
    else expected == 0.0
  }

  lemma ExpectedIsRead(t: Trade, expected: real)
    requires ExpectedIs(t, expected)
    ensures Expected(t) == expected
  {
    FieldIsNumber(t, "stop_loss", expected);
    FieldIsNumber(t, "take_profit_1", expected);
    FieldIsNumber(t, "take_profit_2", expected);
    FieldIsNumber(t, "take_profit_3", expected);
    hide Get, ToFloat, FieldIs, Word;
  }

  /** A late exit locked a profit in and still ended at a loss. */
  lemma LateExitExactlyWhen(t: Trade, locked: real, final: real)
    requires FieldIs(t, "partial_close_pnl", locked) && FieldIs(t, "profit_loss", final)
    ensures Judge(LateExit, t)
         == if ToBool(Get(t, "partial_closed")) && locked > 0.0 && final < -0.01 then Fires(0.66) else Silent
  {
    FieldIsNumber(t, "partial_close_pnl", locked);
    FieldIsNumber(t, "profit_loss", final);
    hide Get, ToFloat, FieldIs, ToBool;
    assert Fire(0.6) == Fires(0.66);
  }

  /** News fires on the flag, and less surely on a list of events that is not empty. */
  lemma NewsEventExactlyWhen(t: Trade)
    ensures Judge(NewsEvent, t)
         == if ToBool(Get(t, "news_event")) then Fires(0.8)
            else if exists n: nat :: n > 0 && "news_events" in t && t["news_events"] == List(n) then Fires(0.695)
            else Silent
  {
    hide ToBool;
    assert Fire(1.0) == Fires(0.8) && Fire(0.7) == Fires(0.695);
    if "news_events" in t && t["news_events"].List? {
      assert t["news_events"] == List(t["news_events"].size);
    }
  }

  /** The trend a trade names, where `h4_trend` comes first. */
  function TrendOf(t: Trade): Value {
    if "h4_trend" in t && Truthy(t["h4_trend"]) then t["h4_trend"]
    else if "ema_h4_trend" in t then t["ema_h4_trend"]
    else Null
  }

  function EmaOf(t: Trade): Value {
    if "h4_ema" in t && Truthy(t["h4_ema"]) then t["h4_ema"]
    else if "ema_h4_value" in t then t["ema_h4_value"]
    else Null
  }

  predicate IsAgainst(word: string, entry: real, average: real) {
    if word == "long" then entry < average else entry > average
  }

  predicate IsUp(word: string) {
    word == "long" || word == "bullish"
  }

  predicate IsDown(word: string) {
    word == "short" || word == "bearish"
  }

  /** A trade goes the wrong way against the trend it names, more surely with an average beside it; without a trend, by
      its entry below the average of a long or above that of a short. */
  lemma WrongDirectionExactlyWhen(t: Trade, entry: real)
    requires FieldIs(t, "entry_price", entry)
    ensures var word, trend, ema := Word(Get(t, "direction")), TrendOf(t), EmaOf(t);
            Judge(WrongDirection, t) == (
              if word != "long" && word != "short" then Silent
              else if trend != Null then
                if (word == "long" && IsDown(Word(trend))) || (word == "short" && IsUp(Word(trend))) then
                  if ema == Null then Fires(0.625) else if exists x :: ReadsAs(ema, x) then Fires(0.8) else Raises
                else Silent
              else if entry != 0.0 && exists x :: ReadsAs(ema, x) && IsAgainst(word, entry, x) then Fires(0.66)
              else Silent)
  {
    FieldIsNumber(t, "entry_price", entry);
    var ema := EmaOf(t);
    var n := Number(ema);
    forall x ensures ReadsAs(ema, x) <==> n == Some(x) {
      NumberIs(ema, x);
    }
    assert Fire(0.5) == Fires(0.625) && Fire(1.0) == Fires(0.8) && Fire(0.6) == Fires(0.66);
    assert Either(Get(t, "h4_trend"), Get(t, "ema_h4_trend")) == TrendOf(t);
    assert Either(Get(t, "h4_ema"), Get(t, "ema_h4_value")) == ema;
    assert ema == Null ==> n.None?;
    hide Get, ToFloat, FieldIs, Either, Truthy, TrendOf, EmaOf, Number, ReadsAs, Word, Fire;
    if n.Some? {
      assert ReadsAs(ema, n.value);
    }
    assert ["long", "short"][0] in {"long", "short"};
  }

  /** White space, a word, and white space. */
  ghost predicate IsPadded(s: string, word: string) {
    exists a: nat, b: nat :: IsMiddle(s, word, a, b)
  }

  predicate IsMiddle(s: string, word: string, a: nat, b: nat) {
    && a <= b <= |s| && s[a..b] == word
    && (forall k :: 0 <= k < a ==> IsSpace(s[k])) && (forall k :: b <= k < |s| ==> IsSpace(s[k]))
  }

  lemma {:induction false} StripIsPadded(s: string)
    ensures var r := Strip(s); IsPadded(s, r) && (r == "" || (!IsSpace(r[0]) && !IsSpace(r[|r| - 1])))
  {
    if s != "" && IsSpace(s[0]) {
      StripIsPadded(s[1..]);
      hide IsSpace;
      var a: nat, b: nat :| IsMiddle(s[1..], Strip(s), a, b);
      MiddleBehind(s, Strip(s), a, b);
    } else if s != "" && IsSpace(s[|s| - 1]) {
      StripIsPadded(s[..|s| - 1]);
      hide IsSpace;
      var a: nat, b: nat :| IsMiddle(s[..|s| - 1], Strip(s), a, b);
      MiddleBefore(s, Strip(s), a, b);
    } else {
      hide IsSpace;
      assert s[0..|s|] == s;
      assert IsMiddle(s, s, 0, |s|);
    }
  }

  lemma MiddleBehind(s: string, word: string, a: nat, b: nat)
    requires s != "" && IsSpace(s[0]) && IsMiddle(s[1..], word, a, b)
    ensures IsMiddle(s, word, a + 1, b + 1)
  {
    hide IsSpace;
    assert s[a + 1..b + 1] == s[1..][a..b];
    assert forall k :: 1 <= k < |s| ==> s[k] == s[1..][k - 1];
  }

  lemma MiddleBefore(s: string, word: string, a: nat, b: nat)
    requires s != "" && IsSpace(s[|s| - 1]) && IsMiddle(s[..|s| - 1], word, a, b)
    ensures IsMiddle(s, word, a, b)
  {
    hide IsSpace;
    assert s[a..b] == s[..|s| - 1][a..b];
    assert forall k :: 0 <= k < |s| - 1 ==> s[k] == s[..|s| - 1][k];
  }

  /** A word that does not begin or end with white space is what stripping leaves of its padding. */
  lemma {:induction false} PaddedStrips(s: string, word: string, a: nat, b: nat)
    requires IsMiddle(s, word, a, b) && word != "" && !IsSpace(word[0]) && !IsSpace(word[|word| - 1])
    ensures Strip(s) == word
    decreases |s|
  {
    hide IsSpace;
    hide IsMiddle;
    if a > 0 {
      MiddleOfTail(s, word, a, b);
      PaddedStrips(s[1..], word, a - 1, b - 1);
    } else {
      MiddleAtStart(s, word, b);
      if b < |s| {
        PaddedStrips(s[..|s| - 1], word, a, b);
      }
    }
  }

  lemma MiddleOfTail(s: string, word: string, a: nat, b: nat)
    requires IsMiddle(s, word, a, b) && a > 0
    ensures s != "" && IsSpace(s[0]) && b > 0 && IsMiddle(s[1..], word, a - 1, b - 1)
  {
    hide IsSpace;
    assert s[1..][a - 1..b - 1] == s[a..b];
  }

  lemma MiddleAtStart(s: string, word: string, b: nat)
    requires IsMiddle(s, word, 0, b) && word != ""
    ensures s != "" && s[0] == word[0] && b <= |s|
    ensures b < |s| ==> IsSpace(s[|s| - 1]) && IsMiddle(s[..|s| - 1], word, 0, b)
    ensures b == |s| ==> s == word
  {
    hide IsSpace;
    if b < |s| {
      assert s[..|s| - 1][0..b] == s[0..b];
    } else {
      assert s[0..|s|] == s;
    }
  }

  /** The word is 1, y, yes or true, in small or capital letters. */
  predicate SaysYes(word: string) {
    || word == "1"
    || (|word| == 1 && word[0] in "yY")
    || (|word| == 3 && word[0] in "yY" && word[1] in "eE" && word[2] in "sS")
    || (|word| == 4 && word[0] in "tT" && word[1] in "rR" && word[2] in "uU" && word[3] in "eE")
  }

  lemma YesLetters(word: string)
    ensures Lower(word) in {"1", "true", "yes", "y"} <==> SaysYes(word)
  {
    var low := Lower(word);
    if |word| == 4 {
      assert low == [LowerChar(word[0]), LowerChar(word[1]), LowerChar(word[2]), LowerChar(word[3])];
    } else if |word| == 3 {
      assert low == [LowerChar(word[0]), LowerChar(word[1]), LowerChar(word[2])];
    } else if |word| == 1 {
      assert low == [LowerChar(word[0])];
    }
  }

  lemma YesIsTight(word: string)
    requires SaysYes(word)
    ensures word != "" && !IsSpace(word[0]) && !IsSpace(word[|word| - 1])
  {
  }

  /** A flag is set by true, by a number other than 0, and by a text that says yes, with white space around it or
      not. */
  lemma ToBoolExactlyWhen(v: Value)
    ensures ToBool(v) <==>
              match v
              case Bool(b) => b
              case Num(x) => x != 0.0
              case Text(s, _) => exists word :: SaysYes(word) && IsPadded(s, word)
              case _ => false
  {
    if v.Text? {
      var s := v.text;
      StripIsPadded(s);
      YesLetters(Strip(s));
      if word :| SaysYes(word) && IsPadded(s, word) {
        YesIsTight(word);
        hide SaysYes, IsSpace;
        var a: nat, b: nat :| IsMiddle(s, word, a, b);
        PaddedStrips(s, word, a, b);
      }
      hide Strip, Lower, IsSpace, IsPadded;
    }
  }

  /** The letters of `text` are those of "loss", small or capital. */
  predicate SaysLoss(text: string) {
    && |text| == 4 && text[0] in "lL" && text[1] in "oO" && text[2] in "sS" && text[3] in "sS"
  }

  function PnlField(t: Trade): string {
    if "profit_loss" in t then "profit_loss" else "pnl"
  }

  /** A trade is a loss when its outcome says so in words; without words, when its profit, or its P&L when no profit is
      given, reads as a number below minus one cent. */
  lemma IsLossExactlyWhen(t: Trade)
    ensures IsLoss(t) <==>
              if "outcome" in t && t["outcome"].Text? then SaysLoss(t["outcome"].text)
              else exists x :: Reads(t, PnlField(t), x) && x < -0.01
  {
    if "outcome" in t && t["outcome"].Text? {
      LossLetters(t["outcome"].text);
    } else {
      var name := PnlField(t);
      if name in t {
        var n := Number(t[name]);
        forall x ensures Reads(t, name, x) <==> n == Some(x) {
          NumberIs(t[name], x);
        }
        hide Reads, Number, Lower;
        if n.Some? {
          assert Reads(t, name, n.value);
        }
      }
    }
  }

  lemma LossLetters(text: string)
    ensures Lower(text) == "loss" <==> SaysLoss(text)
  {
    var low := Lower(text);
    if |text| == 4 {
      assert low == [LowerChar(text[0]), LowerChar(text[1]), LowerChar(text[2]), LowerChar(text[3])];
    }
  }

  // ----- one trade -------------------------------------------------------------------------------

  ghost predicate AnyRaises(t: Trade) {
    exists c :: c in PRIORITY && Judge(c, t).Raises?
  }

  ghost predicate NoneFires(t: Trade) {
    forall c :: c in PRIORITY ==> Judge(c, t).Silent?
  }

  /** Heuristic `i` fires, none is more confident, and no earlier one is as confident. */
  ghost predicate Wins(t: Trade, i: nat) {
    && i < |PRIORITY| && Judge(PRIORITY[i], t).Fires?
    && (forall j :: 0 <= j < |PRIORITY| && Judge(PRIORITY[j], t).Fires? ==>
          && Judge(PRIORITY[j], t).confidence <= Judge(PRIORITY[i], t).confidence
          && (j < i ==> Judge(PRIORITY[j], t).confidence < Judge(PRIORITY[i], t).confidence))
  }

  ghost function AnswerOf(t: Trade, i: nat): Answer
    requires i < |PRIORITY| && Judge(PRIORITY[i], t).Fires?
  {
    Answer(PRIORITY[i], Judge(PRIORITY[i], t).confidence)
  }

  /** The answer is the winner; it is `Other` exactly when no heuristic fires. */
  ghost predicate AnswerIs(t: Trade, a: Answer) {
    && (a.category == Other <==> NoneFires(t))
    && (a.category == Other ==> a.confidence == 0.0)
    && (a.category != Other ==> exists i: nat :: Wins(t, i) && a == AnswerOf(t, i))
  }

  /** Among the first `n` heuristics. */
  ghost predicate BestSoFar(t: Trade, n: nat, best: Option<Answer>)
    requires n <= |PRIORITY|
  {
    match best
    case None => forall j :: 0 <= j < n ==> Judge(PRIORITY[j], t).Silent?
    case Some(a) => exists i: nat :: i < n && LeadsTo(t, i, n) && a == AnswerOf(t, i)
  }

  ghost predicate LeadsTo(t: Trade, i: nat, n: nat)
    requires i < n <= |PRIORITY|
  {
    && Judge(PRIORITY[i], t).Fires?
    && (forall j :: 0 <= j < n ==> !Judge(PRIORITY[j], t).Raises?)
    && (forall j :: 0 <= j < n && Judge(PRIORITY[j], t).Fires? ==>
          && Judge(PRIORITY[j], t).confidence <= Judge(PRIORITY[i], t).confidence
          && (j < i ==> Judge(PRIORITY[j], t).confidence < Judge(PRIORITY[i], t).confidence))
  }

  /** Keeping the better of the best so far and the next verdict; on a tie the earlier one stays. */
  lemma BestMore(t: Trade, n: nat, best: Option<Answer>)
    requires n < |PRIORITY| && BestSoFar(t, n, best) && !Judge(PRIORITY[n], t).Raises?
    ensures var v := Judge(PRIORITY[n], t);
            BestSoFar(t, n + 1, if v.Fires? && (best.None? || v.confidence > best.value.confidence)
              then Some(Answer(PRIORITY[n], v.confidence)) else best)
  {
    var v := Judge(PRIORITY[n], t);
    if v.Fires? && (best.None? || v.confidence > best.value.confidence) {
      hide Judge;
      NextLeads(t, n, best);
    } else if best.Some? {
      hide Judge, AnswerOf, LeadsTo;
      var k: nat :| k < n && LeadsTo(t, k, n) && best.value == AnswerOf(t, k);
      FirstStillLeads(t, k, n);
    } else {
      hide Judge;
    }
  }

  lemma NextLeads(t: Trade, n: nat, best: Option<Answer>)
    requires n < |PRIORITY| && BestSoFar(t, n, best) && Judge(PRIORITY[n], t).Fires?
    requires best.None? || Judge(PRIORITY[n], t).confidence > best.value.confidence
    ensures LeadsTo(t, n, n + 1)
  {
    hide Judge;
    if best.Some? {
      var k: nat :| k < n && LeadsTo(t, k, n) && best.value == AnswerOf(t, k);
    }
  }

  lemma FirstStillLeads(t: Trade, k: nat, n: nat)
    requires k < n < |PRIORITY| && LeadsTo(t, k, n) && !Judge(PRIORITY[n], t).Raises?
    requires Judge(PRIORITY[n], t).Fires? ==> Judge(PRIORITY[n], t).confidence <= AnswerOf(t, k).confidence
    ensures LeadsTo(t, k, n + 1) && AnswerOf(t, k) == Answer(PRIORITY[k], Judge(PRIORITY[k], t).confidence)
  {
    hide Judge;
  }

  method CategorizeTrade(t: Trade) returns (r: Option<Answer>)
    ensures r.None? <==> AnyRaises(t)
    ensures r.Some? ==> AnswerIs(t, r.value)
  {
    var best: Option<Answer> := None;
    assert BestSoFar(t, 0, best);
    hide Judge, BestSoFar, AnswerIs;
    for i := 0 to |PRIORITY|
      invariant BestSoFar(t, i, best)
    {
      var verdict := Judge(PRIORITY[i], t);
      if verdict.Raises? {
        assert PRIORITY[i] in PRIORITY;
        return None;
      }
      BestMore(t, i, best);
      if verdict.Fires? && (best.None? || verdict.confidence > best.value.confidence) {
        best := Some(Answer(PRIORITY[i], verdict.confidence));
      }
    }
    var low := best.None? || best.value.confidence < FLOOR;
    var confidence := if best.Some? && best.value.confidence > 0.0 then best.value.confidence else 0.0;
    BestIsAnswer(t, best);
    if low {
      NothingIsOther(t);
      return Some(Answer(Other, confidence));
    }
    return best;
  }

  lemma NothingIsOther(t: Trade)
    requires NoneFires(t)
    ensures AnswerIs(t, Answer(Other, 0.0))
  {
  }

  lemma BestIsAnswer(t: Trade, best: Option<Answer>)
    requires BestSoFar(t, |PRIORITY|, best)
    ensures !AnyRaises(t)
    ensures best.None? ==> NoneFires(t)
    ensures best.Some? ==> best.value.confidence >= FLOOR && AnswerIs(t, best.value)
  {
    hide Judge;
    if best.Some? {
      var i: nat :| i < |PRIORITY| && LeadsTo(t, i, |PRIORITY|) && best.value == AnswerOf(t, i);
      ConfidenceRange(PRIORITY[i], t);
      assert Wins(t, i);
      assert PRIORITY[i] in PRIORITY && PRIORITY[i] != Other;
    }
  }

  /** The order of the heuristics. */
  function Rank(c: Category): nat {
    match c
    case BadEntry => 0
    case StopPlacement => 1
    case WrongDirection => 2
    case NewsEvent => 3
    case SpreadWidening => 4
    case Slippage => 5
    case LateExit => 6
    case Other => 7
  }

  /** No heuristic is more confident than the answer, and none that comes earlier is as confident. */
  lemma AnswerBeatsAll(t: Trade, a: Answer, c: Category)
    requires AnswerIs(t, a) && Judge(c, t).Fires?
    ensures a.category != Other && Judge(a.category, t) == Fires(a.confidence)
    ensures Judge(c, t).confidence <= a.confidence
    ensures Rank(c) < Rank(a.category) ==> Judge(c, t).confidence < a.confidence
  {
    hide *;
    OtherIsSilent(t, c);
    RanksAre(c);
    var i := Winner(t, a, c);
    RankAt(i);
    WinsOver(t, i, Rank(c));
  }

  lemma OtherIsSilent(t: Trade, c: Category)
    requires Judge(c, t).Fires?
    ensures c != Other
  {
  }

  lemma Winner(t: Trade, a: Answer, c: Category) returns (i: nat)
    requires AnswerIs(t, a) && Judge(c, t).Fires? && c in PRIORITY
    ensures i < |PRIORITY| && Wins(t, i) && a.category == PRIORITY[i]
    ensures Judge(PRIORITY[i], t) == Fires(a.confidence)
  {
    hide Judge;
    i :| Wins(t, i) && a == AnswerOf(t, i);
  }

  lemma WinsOver(t: Trade, i: nat, j: nat)
    requires i < |PRIORITY| && j < |PRIORITY| && Wins(t, i) && Judge(PRIORITY[j], t).Fires?
    ensures Judge(PRIORITY[i], t).Fires?
    ensures Judge(PRIORITY[j], t).confidence <= Judge(PRIORITY[i], t).confidence
    ensures j < i ==> Judge(PRIORITY[j], t).confidence < Judge(PRIORITY[i], t).confidence
  {
    hide Judge;
  }

  lemma RanksAre(c: Category)
    requires c != Other
    ensures Rank(c) < |PRIORITY| && PRIORITY[Rank(c)] == c && c in PRIORITY
  {
    assert PRIORITY[Rank(c)] == c;
  }

  lemma RankAt(i: nat)
    requires i < |PRIORITY|
    ensures Rank(PRIORITY[i]) == i && PRIORITY[i] != Other
  {
  }

  lemma AnswerIsUnique(t: Trade, a: Answer, b: Answer)
    requires AnswerIs(t, a) && AnswerIs(t, b)
    ensures a == b
  {
    hide Judge, NoneFires;
    if a.category != Other {
      var i: nat :| Wins(t, i) && a == AnswerOf(t, i);
      var j: nat :| Wins(t, j) && b == AnswerOf(t, j);
    }
  }

  // ----- all trades ------------------------------------------------------------------------------

  function Losses(trades: seq<Trade>): seq<Trade> {
    if trades == [] then []
    else
      var before, t := Losses(trades[..|trades| - 1]), trades[|trades| - 1];
      if IsLoss(t) then before + [t] else before
  }

  function Count(answers: seq<Answer>, c: Category): nat {
    if answers == [] then 0
    else Count(answers[..|answers| - 1], c) + (if answers[|answers| - 1].category == c then 1 else 0)
  }

  const ALL: seq<Category> := PRIORITY + [Other]

  function CountSum(answers: seq<Answer>, cs: seq<Category>): nat {
    if cs == [] then 0 else CountSum(answers, cs[..|cs| - 1]) + Count(answers, cs[|cs| - 1])
  }

  predicate AnyField(trades: seq<Trade>, names: seq<string>) {
    exists t :: t in trades && HasAny(t, names)
  }

  predicate HasAny(t: Trade, names: seq<string>) {
    exists name :: name in names && name in t
  }

  const SESSION: seq<string> := ["session_high", "session_low", "session_mean", "session_std"]
  const TREND: seq<string> := ["h4_trend", "ema_h4_trend", "h4_ema", "ema_h4_value"]
  const NEWS: seq<string> := ["news_event", "news_events"]
  const SPREAD: seq<string> := ["spread_at_entry", "spread_pips"]

  /** Which category the field check calls skipped. */
  predicate Absent(losing: seq<Trade>, c: Category) {
    match c
    case BadEntry => !AnyField(losing, SESSION)
    case StopPlacement => !AnyField(losing, ["atr"])
    case WrongDirection => !AnyField(losing, TREND)
    case NewsEvent => !AnyField(losing, NEWS)
    case SpreadWidening => !AnyField(losing, SPREAD) || !AnyField(losing, ["spread_avg_rolling"])
    case _ => false
  }

  method FieldPresent(losing: seq<Trade>, names: seq<string>) returns (found: bool)
    ensures found == AnyField(losing, names)
  {
    for i := 0 to |losing|
      invariant forall k :: 0 <= k < i ==> !HasAny(losing[k], names)
    {
      for j := 0 to |names|
        invariant forall k :: 0 <= k < j ==> names[k] !in losing[i]
      {
        if names[j] in losing[i] {
          assert names[j] in names && HasAny(losing[i], names) && losing[i] in losing;
          return true;
        }
      }
    }
    return false;
  }

  /** Of the categories seen, those skipped are the absent ones. */
  ghost predicate Listed(losing: seq<Trade>, skipped: seq<Category>, seen: set<Category>) {
    forall c :: c in skipped <==> c in seen && Absent(losing, c)
  }

  method NoteAbsent(losing: seq<Trade>, skipped: seq<Category>, c: Category, present: bool, ghost seen: set<Category>)
    returns (more: seq<Category>)
    requires Listed(losing, skipped, seen) && present == !Absent(losing, c)
    ensures Listed(losing, more, seen + {c})
  {
    hide Absent;
    more := skipped;
    if !present {
      more := more + [c];
    }
  }

  lemma NothingListed(losing: seq<Trade>)
    ensures Listed(losing, [], {})
  {
  }

  lemma AllListed(losing: seq<Trade>, skipped: seq<Category>, seen: set<Category>)
    requires Listed(losing, skipped, seen)
    requires seen == {} + {BadEntry} + {StopPlacement} + {WrongDirection} + {NewsEvent} + {SpreadWidening}
    ensures forall c :: c in skipped <==> Absent(losing, c)
  {
    hide AnyField;
  }

  lemma AbsentByFields(losing: seq<Trade>)
    ensures Absent(losing, BadEntry) <==> !AnyField(losing, SESSION)
    ensures Absent(losing, StopPlacement) <==> !AnyField(losing, ["atr"])
    ensures Absent(losing, WrongDirection) <==> !AnyField(losing, TREND)
    ensures Absent(losing, NewsEvent) <==> !AnyField(losing, NEWS)
    ensures Absent(losing, SpreadWidening) <==> !AnyField(losing, SPREAD) || !AnyField(losing, ["spread_avg_rolling"])
  {
    hide AnyField;
  }

  method DetectSkipped(losing: seq<Trade>) returns (skipped: seq<Category>)
    ensures losing == [] ==> skipped == []
    ensures losing != [] ==> forall c :: c in skipped <==> Absent(losing, c)
  {
    skipped := [];
    if losing == [] {
      return;
    }
    hide *;
    AbsentByFields(losing);
    NothingListed(losing);
    ghost var seen := {};
    var session := FieldPresent(losing, SESSION);
    skipped := NoteAbsent(losing, skipped, BadEntry, session, seen);
    seen := seen + {BadEntry};
    var atr := FieldPresent(losing, ["atr"]);
    skipped := NoteAbsent(losing, skipped, StopPlacement, atr, seen);
    seen := seen + {StopPlacement};
    var trend := FieldPresent(losing, TREND);
    skipped := NoteAbsent(losing, skipped, WrongDirection, trend, seen);
    seen := seen + {WrongDirection};
    var news := FieldPresent(losing, NEWS);
    skipped := NoteAbsent(losing, skipped, NewsEvent, news, seen);
    seen := seen + {NewsEvent};
    var spread := FieldPresent(losing, SPREAD);
    var rolling := FieldPresent(losing, ["spread_avg_rolling"]);
    skipped := NoteAbsent(losing, skipped, SpreadWidening, spread && rolling, seen);
    seen := seen + {SpreadWidening};
    AllListed(losing, skipped, seen);
  }

  lemma LacksAll(losing: seq<Trade>, names: seq<string>, t: Trade)
    requires !AnyField(losing, names) && t in losing
    ensures forall name :: name in names ==> name !in t && Get(t, name).Null?
  {
    assert !HasAny(t, names);
  }

  /** A heuristic whose fields every losing trade lacks stays silent on each of them. */
  lemma AbsentIsSilent(losing: seq<Trade>, c: Category, t: Trade)
    requires Absent(losing, c) && t in losing
    ensures Judge(c, t).Silent?
  {
    hide AnyField, PipSize, ToBool, Word;
    match c
    case BadEntry =>
      LacksAll(losing, SESSION, t);
      assert "session_high" in SESSION && "session_low" in SESSION && "session_mean" in SESSION;
      assert Mean(t).Null?;
    case StopPlacement =>
      LacksAll(losing, ["atr"], t);
      assert "atr" in ["atr"];
      assert Get(t, "atr").Null?;
    case WrongDirection =>
      LacksAll(losing, TREND, t);
      assert "h4_trend" in TREND && "ema_h4_trend" in TREND && "h4_ema" in TREND && "ema_h4_value" in TREND;
    case NewsEvent =>
      LacksAll(losing, NEWS, t);
      assert "news_event" in NEWS && "news_events" in NEWS;
      assert !ToBool(Null) by { NullIsFalse(); }
    case SpreadWidening =>
      if !AnyField(losing, SPREAD) {
        LacksAll(losing, SPREAD, t);
        assert "spread_at_entry" in SPREAD && "spread_pips" in SPREAD;
        assert Either(Null, Null) == Null;
      } else {
        LacksAll(losing, ["spread_avg_rolling"], t);
        assert "spread_avg_rolling" in ["spread_avg_rolling"];
        assert Get(t, "spread_avg_rolling").Null?;
      }
  }

  lemma NullIsFalse()
    ensures !ToBool(Null)
  {
  }

  ghost predicate Answered(losing: seq<Trade>, answers: seq<Answer>) {
    && |answers| == |losing|
    && (forall i :: 0 <= i < |losing| ==> !AnyRaises(losing[i]) && AnswerIs(losing[i], answers[i]))
  }

  lemma {:induction false} CountZero(answers: seq<Answer>, c: Category)
    requires forall i :: 0 <= i < |answers| ==> answers[i].category != c
    ensures Count(answers, c) == 0
  {
    if answers != [] {
      CountZero(answers[..|answers| - 1], c);
    }
  }

  /** A category reported as skipped counts no losing trade. */
  lemma SkippedCountsNothing(losing: seq<Trade>, answers: seq<Answer>, c: Category)
    requires Answered(losing, answers) && Absent(losing, c)
    ensures Count(answers, c) == 0
  {
    forall i | 0 <= i < |answers| ensures answers[i].category != c {
      AbsentIsSilent(losing, c, losing[i]);
      hide Absent, Judge, NoneFires;
      assert AnswerIs(losing[i], answers[i]);
    }
    CountZero(answers, c);
  }

  lemma {:induction false} CountSumMore(answers: seq<Answer>, a: Answer, cs: seq<Category>)
    requires forall i, j :: 0 <= i < j < |cs| ==> cs[i] != cs[j]
    ensures CountSum(answers + [a], cs) == CountSum(answers, cs) + (if a.category in cs then 1 else 0)
  {
    if cs != [] {
      var init, c := cs[..|cs| - 1], cs[|cs| - 1];
      assert cs == init + [c];
      CountSumMore(answers, a, init);
      assert (answers + [a])[..|answers|] == answers;
      assert c !in init;
    }
  }

  lemma {:induction false} CountSumZero(cs: seq<Category>)
    ensures CountSum([], cs) == 0
  {
    if cs != [] {
      CountSumZero(cs[..|cs| - 1]);
    }
  }

  lemma EveryCategoryListed(c: Category)
    ensures c in ALL
    ensures forall i, j :: 0 <= i < j < |ALL| ==> ALL[i] != ALL[j]
  {
    assert ALL == [BadEntry, StopPlacement, WrongDirection, NewsEvent, SpreadWidening, Slippage, LateExit, Other];
    var k := match c
      case BadEntry => 0
      case StopPlacement => 1
      case WrongDirection => 2
      case NewsEvent => 3
      case SpreadWidening => 4
      case Slippage => 5
      case LateExit => 6
      case Other => 7;
    assert ALL[k] == c;
  }

  /** The category counts sum to the number of losing trades. */
  lemma {:induction false} CountsSumToLosses(answers: seq<Answer>)
    ensures CountSum(answers, ALL) == |answers|
  {
    if answers == [] {
      CountSumZero(ALL);
    } else {
      var init, a := answers[..|answers| - 1], answers[|answers| - 1];
      CountsSumToLosses(init);
      EveryCategoryListed(a.category);
      CountSumMore(init, a, ALL);
      assert answers == init + [a];
    }
  }

  lemma LossesAppend(trades: seq<Trade>, t: Trade)
    ensures Losses(trades + [t]) == if IsLoss(t) then Losses(trades) + [t] else Losses(trades)
    ensures Losses([]) == []
  {
    assert (trades + [t])[..|trades|] == trades;
  }

  lemma AnsweredMore(losing: seq<Trade>, answers: seq<Answer>, i: nat, a: Answer)
    requires i < |losing| && Answered(losing[..i], answers) && !AnyRaises(losing[i]) && AnswerIs(losing[i], a)
    ensures Answered(losing[..i + 1], answers + [a])
  {
    hide AnyRaises, AnswerIs;
    assert losing[..i + 1] == losing[..i] + [losing[i]];
  }

  /** The tallies count the answers by category. */
  ghost predicate Tallied(counts: map<Category, nat>, answers: seq<Answer>) {
    forall c :: CountIn(counts, c) == Count(answers, c)
  }

  lemma TalliedMore(counts: map<Category, nat>, answers: seq<Answer>, a: Answer)
    requires Tallied(counts, answers)
    ensures Tallied(counts[a.category := CountIn(counts, a.category) + 1], answers + [a])
    ensures Tallied(map[], [])
  {
    var more := counts[a.category := CountIn(counts, a.category) + 1];
    forall c ensures CountIn(more, c) == Count(answers + [a], c) {
      CountAppends(answers, a, c);
      hide Count;
    }
  }

  lemma CountAppends(answers: seq<Answer>, a: Answer, c: Category)
    ensures Count(answers + [a], c) == Count(answers, c) + (if a.category == c then 1 else 0)
  {
    assert (answers + [a])[..|answers|] == answers;
  }

  lemma SkippedCountNothing(losing: seq<Trade>, answers: seq<Answer>, skipped: seq<Category>)
    requires Answered(losing, answers) && forall c :: c in skipped ==> Absent(losing, c)
    ensures forall c :: c in skipped ==> Count(answers, c) == 0
  {
    hide *;
    forall c | c in skipped ensures Count(answers, c) == 0 {
      SkippedCountsNothing(losing, answers, c);
    }
  }

  /** The report: one answer per losing trade, counted; skipped categories count nothing; raised when any losing trade
      makes a heuristic raise. */
  method Summarize(trades: seq<Trade>)
    returns (answers: Option<seq<Answer>>, counts: map<Category, nat>, skipped: seq<Category>)
    ensures answers.None? <==> exists i :: 0 <= i < |Losses(trades)| && AnyRaises(Losses(trades)[i])
    ensures answers.Some? ==>
              && Answered(Losses(trades), answers.value)
              && (forall c :: CountIn(counts, c) == Count(answers.value, c))
              && CountSum(answers.value, ALL) == |Losses(trades)|
              && (forall c :: c in skipped ==> CountIn(counts, c) == 0)
  {
    var losing := [];
    counts := map[];
    var out := [];
    assert Losses([]) == [] && Answered([], out) && Tallied(counts, out);
    hide *;
    for i := 0 to |trades|
      invariant losing == Losses(trades[..i])
    {
      assert trades[..i + 1] == trades[..i] + [trades[i]];
      LossesAppend(trades[..i], trades[i]);
      if IsLoss(trades[i]) {
        losing := losing + [trades[i]];
      }
    }
    assert trades[..|trades|] == trades;
    skipped := DetectSkipped(losing);
    for i := 0 to |losing|
      invariant Answered(losing[..i], out) && Tallied(counts, out)
    {
      var a := CategorizeTrade(losing[i]);
      if a.None? {
        return None, counts, skipped;
      }
      AnsweredMore(losing, out, i, a.value);
      TalliedMore(counts, out, a.value);
      var c := a.value.category;
      counts := counts[c := CountIn(counts, c) + 1];
      out := out + [a.value];
    }
    assert losing[..|losing|] == losing;
    Reported(losing, out, counts, skipped);
    return Some(out), counts, skipped;
  }

  lemma Reported(losing: seq<Trade>, answers: seq<Answer>, counts: map<Category, nat>, skipped: seq<Category>)
    requires Answered(losing, answers) && Tallied(counts, answers)
    requires losing == [] ==> skipped == []
    requires losing != [] ==> forall c :: c in skipped <==> Absent(losing, c)
    ensures forall i :: 0 <= i < |losing| ==> !AnyRaises(losing[i])
    ensures forall c :: CountIn(counts, c) == Count(answers, c)
    ensures CountSum(answers, ALL) == |losing|
    ensures forall c :: c in skipped ==> CountIn(counts, c) == 0
  {
    hide AnyRaises, AnswerIs, Absent, Count, CountIn, CountSum;
    CountsSumToLosses(answers);
    SkippedCountNothing(losing, answers, skipped);
  }

  function CountIn(counts: map<Category, nat>, c: Category): nat {
    if c in counts then counts[c] else 0
  }
}
