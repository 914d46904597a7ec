/**
 * The financial-literacy decision game (`FinancialGameModal`): the
 * player's stats and how an answer's effect moves them, the question pool
 * drawn from without replacement, the adult phase's daily quota of ten
 * answers with its 24-hour reset, the countdown shown as hh:mm:ss, and
 * the literacy rewards of the two side quizzes.
 */
module FinancialGame {
  import opened Common

  /** Milliseconds in 24 hours: the length of one daily-quota window. */
  const Day: int := 24 * 60 * 60 * 1000

  /** Answers allowed per window in the adult phase. */
  const DailyQuota: int := 10

  // ---------------------------------------------------------------------
  // The countdown display
  // ---------------------------------------------------------------------

  /** `Math.ceil(Math.max(0, ms) / 1000)`: whole seconds left, rounded up. */
  function TotalSeconds(ms: int): (ts: nat)
    ensures ms <= 0 ==> ts == 0
    ensures ms > 0 ==> (ts - 1) * 1000 < ms <= ts * 1000
  {
    if ms <= 0 then 0 else (ms + 999) / 1000
  }

  /** `formatMs`: hours, minutes and seconds, each padded to two digits. */
  function FormatMs(ms: int): string {
    var ts := TotalSeconds(ms);
    Pad2(Decimal(ts / 3600)) + ":" + Pad2(Decimal(ts % 3600 / 60)) + ":" + Pad2(Decimal(ts % 60))
  }

  /**
   * Reading an "hh:mm:ss" string back: the last two characters are the
   * seconds, the two before the second colon the minutes, and everything
   * before the first colon the hours; `None` when the shape is wrong.
   */
  datatype Clock = Clock(hours: nat, minutes: nat, seconds: nat)

  function ParseClock(t: string): Option<Clock> {
    if |t| >= 8 && t[|t| - 3] == ':' && t[|t| - 6] == ':'
       && AllDigits(t[..|t| - 6]) && AllDigits(t[|t| - 5..|t| - 3]) && AllDigits(t[|t| - 2..])
    then Some(Clock(DecimalValue(t[..|t| - 6]), DecimalValue(t[|t| - 5..|t| - 3]), DecimalValue(t[|t| - 2..])))
    else None
  }

  lemma {:induction false} DecimalShort(n: nat)
    requires n < 100
    ensures |Decimal(n)| <= 2
  {
    if n >= 10 {
      assert Decimal(n) == Decimal(n / 10) + [DigitChar(n % 10)];
    }
  }

  /** Where the pieces of three strings joined by colons sit in the result. */
  lemma JoinedPieces(hh: string, mm: string, ss: string)
    requires |mm| == 2 && |ss| == 2
    ensures var t := hh + ":" + mm + ":" + ss;
      |t| == |hh| + 6 && t[|t| - 3] == ':' && t[|t| - 6] == ':'
      && t[..|t| - 6] == hh && t[|t| - 5..|t| - 3] == mm && t[|t| - 2..] == ss
  {
    var t := hh + ":" + mm + ":" + ss;
    assert t == hh + (":" + mm + ":" + ss);
  }

  /** Three numerals joined by colons read back as the numbers they denote. */
  lemma ParseJoined(hh: string, mm: string, ss: string)
    requires AllDigits(hh) && AllDigits(mm) && AllDigits(ss)
    requires |hh| >= 2 && |mm| == 2 && |ss| == 2
    ensures ParseClock(hh + ":" + mm + ":" + ss) == Some(Clock(DecimalValue(hh), DecimalValue(mm), DecimalValue(ss)))
  {
    JoinedPieces(hh, mm, ss);
  }

  /** A number below 100, padded, is a two-digit numeral of that number. */
  lemma PaddedSmall(n: nat)
    requires n < 100
    ensures AllDigits(Pad2(Decimal(n))) && |Pad2(Decimal(n))| == 2 && DecimalValue(Pad2(Decimal(n))) == n
  {
    DecimalShort(n);
    Pad2Value(Decimal(n));
    DecimalRoundTrip(n);
  }

  /**
   * The countdown reads back as hours, minutes and seconds that add up to
   * the seconds left, with minutes and seconds below 60 and every field at
   * least two digits wide.
   */
  lemma FormatMsReadsBack(ms: int)
    ensures var t := FormatMs(ms);
      |t| >= 8 && ParseClock(t).Some?
      && var c := ParseClock(t).value;
      c.hours * 3600 + c.minutes * 60 + c.seconds == TotalSeconds(ms)
      && c.minutes < 60 && c.seconds < 60
  {
    var ts := TotalSeconds(ms);
    var h, m, s := ts / 3600, ts % 3600 / 60, ts % 60;
    ClockSplit(ts);
    PaddedSmall(m);
    PaddedSmall(s);
    Pad2Value(Decimal(h));
    DecimalRoundTrip(h);
    ParseJoined(Pad2(Decimal(h)), Pad2(Decimal(m)), Pad2(Decimal(s)));
  }

  /** Hours, minutes and seconds of a count of seconds add back up to it. */
  lemma ClockSplit(ts: nat)
    ensures ts % 3600 / 60 < 60 && ts % 60 < 60
    ensures (ts / 3600) * 3600 + (ts % 3600 / 60) * 60 + ts % 60 == ts
  {
    var h, r := ts / 3600, ts % 3600;
    var m, s := r / 60, r % 60;
    assert ts == h * 3600 + r;
    assert r == m * 60 + s;
    FactorAtLeast(m - 59, 60);
    assert ts == (h * 60 + m) * 60 + s;
    DivModUnique(ts, 60, h * 60 + m, s);
  }

  /** Once the window has run out the countdown shows all zeros. */
  lemma FormatMsExpired(ms: int)
    requires ms <= 0
    ensures FormatMs(ms) == "00:00:00"
  {
    assert Decimal(0) == "0";
    assert Pad2("0") == "00";
  }

  // ---------------------------------------------------------------------
  // Player stats and answer effects
  // ---------------------------------------------------------------------

  datatype Stat = Cash | Happiness | Literacy | Health | Debt

  datatype Player = Player(name: string, cash: int, happiness: int, literacy: int, health: int, debt: int)

  function Get(p: Player, s: Stat): int {
    match s
    case Cash => p.cash
    case Happiness => p.happiness
    case Literacy => p.literacy
    case Health => p.health
    case Debt => p.debt
  }

  /** The player with one stat replaced. */
  function Set(p: Player, s: Stat, v: int): (q: Player)
    ensures Get(q, s) == v && q.name == p.name
    ensures forall t :: t != s ==> Get(q, t) == Get(p, t)
  {
    match s
    case Cash => p.(cash := v)
    case Happiness => p.(happiness := v)
    case Literacy => p.(literacy := v)
    case Health => p.(health := v)
    case Debt => p.(debt := v)
  }

  /** The numeric stat an effect key names, if any; other keys are skipped. */
  function StatOf(key: string): Option<Stat> {
    if key == "cash" then Some(Cash)
    else if key == "happiness" then Some(Happiness)
    else if key == "literacy" then Some(Literacy)
    else if key == "health" then Some(Health)
    else if key == "debt" then Some(Debt)
    else None
  }

  /** An option's effect: its keys and amounts in the order they are listed. */
  type Effect = seq<(string, int)>

  /** The stats after adding each listed amount to the stat its key names. */
  function Added(p: Player, effect: Effect): Player
    decreases |effect|
  {
    if effect == [] then p
    else
      var q := Added(p, effect[..|effect| - 1]);
      var (key, amount) := effect[|effect| - 1];
      match StatOf(key)
      case None => q
      case Some(s) => Set(q, s, Get(q, s) + amount)
  }

  /** The total amount an effect lists for one stat. */
  function EffectOn(effect: Effect, s: Stat): int
    decreases |effect|
  {
    if effect == [] then 0
    else EffectOn(effect[..|effect| - 1], s) + (if StatOf(effect[|effect| - 1].0) == Some(s) then effect[|effect| - 1].1 else 0)
  }

  /** Adding an effect moves each stat by exactly the amount listed for it, and keeps the name. */
  lemma {:induction false} AddedPerStat(p: Player, effect: Effect, s: Stat)
    ensures Get(Added(p, effect), s) == Get(p, s) + EffectOn(effect, s)
    ensures Added(p, effect).name == p.name
    decreases |effect|
  {
    if effect != [] {
      AddedPerStat(p, effect[..|effect| - 1], s);
    }
  }

  /** The range a stat is held to after an answer. */
  function ClampStat(s: Stat, v: int): int {
    match s
    case Happiness => Min(100, Max(0, v))
    case Health => Min(100, Max(0, v))
    case _ => Max(0, v)
  }

  /** Happiness and health within [0, 100]; cash, literacy and debt not negative. */
  predicate Clamped(p: Player) {
    p.cash >= 0 && p.literacy >= 0 && p.debt >= 0
    && 0 <= p.happiness <= 100 && 0 <= p.health <= 100
  }

  function ClampStats(p: Player): (q: Player)
    ensures Clamped(q) && q.name == p.name
    ensures forall s :: Get(q, s) == ClampStat(s, Get(p, s))
    ensures Clamped(p) ==> q == p
  {
    Player(p.name, Max(0, p.cash), Min(100, Max(0, p.happiness)), Max(0, p.literacy),
           Min(100, Max(0, p.health)), Max(0, p.debt))
  }

  /** The stats an accepted answer leaves. */
  function AnswerEffect(p: Player, effect: Effect): Player {
    ClampStats(Added(p, effect))
  }

  /**
   * After an accepted answer every stat is within its range, and each is
   * its old value plus the effect's amount for it, clamped to that range.
   */
  lemma AnswerOutcome(p: Player, effect: Effect)
    ensures Clamped(AnswerEffect(p, effect))
    ensures AnswerEffect(p, effect).name == p.name
    ensures forall s :: Get(AnswerEffect(p, effect), s) == ClampStat(s, Get(p, s) + EffectOn(effect, s))
  {
    forall s ensures Get(AnswerEffect(p, effect), s) == ClampStat(s, Get(p, s) + EffectOn(effect, s)) {
      AddedPerStat(p, effect, s);
    }
    AddedPerStat(p, effect, Cash);
  }

  /** The loop over an effect's keys that adds each amount to the matching stat. */
  method ApplyEffect(p: Player, effect: Effect) returns (q: Player)
    ensures q == Added(p, effect)
  {
    q := p;
    var i := 0;
    while i < |effect|
      invariant 0 <= i <= |effect|
      invariant q == Added(p, effect[..i])
    {
      var (key, amount) := effect[i];
      assert effect[..i + 1][..i] == effect[..i];
      match StatOf(key) {
        case None =>
        case Some(s) => q := Set(q, s, Get(q, s) + amount);
      }
      i := i + 1;
    }
    assert effect[..|effect|] == effect;
  }

  /**
   * A side-quiz answer's effect on literacy: a correct one adds the reward
   * up to a cap of 100, a wrong one takes one point off down to 0.
   */
  function LiteracyAfter(literacy: int, isCorrect: bool, reward: nat): (l: int)
    ensures 0 <= literacy <= 100 ==> 0 <= l <= 100
    ensures isCorrect && literacy <= 100 ==> l >= literacy && (literacy < 100 && reward > 0 ==> l > literacy)
    ensures !isCorrect ==> l >= 0 && (literacy > 0 ==> l == literacy - 1) && (literacy >= 0 ==> l <= literacy)
  {
    if isCorrect then Min(100, literacy + reward) else Max(0, literacy - 1)
  }

  /**
   * Literacy is only floored at 0 by the decision game, so it can exceed
   * 100; a correct side-quiz answer then brings it down to the cap.
   */
  lemma CorrectAnswerAboveCap(literacy: int, reward: nat)
    requires literacy > 100
    ensures LiteracyAfter(literacy, true, reward) == 100 < literacy
  {
  }

  // ---------------------------------------------------------------------
  // Drawing questions
  // ---------------------------------------------------------------------

  datatype Choice = Choice(text: string, effect: Effect)
  datatype Question = Question(id: string, text: string, options: seq<Choice>)

  datatype Phase = Student | Adult

  /** The pool without the item at index i, the others in their order. */
  function RemoveAt<T>(s: seq<T>, i: int): (r: seq<T>)
    requires 0 <= i < |s|
    ensures |r| == |s| - 1
    ensures forall j :: 0 <= j < i ==> r[j] == s[j]
    ensures forall j :: i <= j < |r| ==> r[j] == s[j + 1]
    ensures multiset(r) + multiset{s[i]} == multiset(s)
  {
    assert s == s[..i] + [s[i]] + s[i + 1..];
    s[..i] + s[i + 1..]
  }

  /** What loading the next question ends in. */
  datatype Load =
    | Congratulate
    | Drawn(next: Option<Question>, rest: seq<Question>)

  /** The pool a question is drawn from: the remaining events, or the adult bank once they run out. */
  function Pool(eventList: seq<Question>, adultBank: seq<Question>): seq<Question> {
    if |eventList| > 0 then eventList else adultBank
  }

  /**
   * `loadNextQuestion`: in the student phase an exhausted list ends the
   * phase; otherwise a draw picks one question out of the pool and the
   * rest of the pool stays behind.
   */
  function NextQuestion(phase: Phase, eventList: seq<Question>, adultBank: seq<Question>, r: Draw): (l: Load)
    ensures l.Congratulate? <==> phase == Student && eventList == []
    ensures l.Drawn? && Pool(eventList, adultBank) == [] ==> l == Drawn(None, [])
    ensures l.Drawn? && Pool(eventList, adultBank) != [] ==>
      var pool := Pool(eventList, adultBank);
      var i := PickIndex(r, |pool|);
      0 <= i < |pool| && l.next == Some(pool[i])
      && multiset(l.rest) + multiset{pool[i]} == multiset(pool)
  {
    if phase == Student && |eventList| == 0 then Congratulate
    else
      var pool := Pool(eventList, adultBank);
      if |pool| == 0 then Drawn(None, [])
      else
        var i := PickIndex(r, |pool|);
        Drawn(Some(pool[i]), RemoveAt(pool, i))
  }

  /** Drawing again and again from a non-empty list shrinks it by one each time. */
  lemma DrawShrinksPool(phase: Phase, eventList: seq<Question>, adultBank: seq<Question>, r: Draw)
    requires eventList != []
    ensures NextQuestion(phase, eventList, adultBank, r).Drawn?
    ensures |NextQuestion(phase, eventList, adultBank, r).rest| == |eventList| - 1
    ensures NextQuestion(phase, eventList, adultBank, r).next.value in eventList
  {
  }

  // ---------------------------------------------------------------------
  // The game's state
  // ---------------------------------------------------------------------

  datatype Mode = Main | StockQuiz | TenYearBet

  /** What the game last wrote under its daily-limit storage key. */
  datatype DailyLimit = DailyLimit(count: int, resetAt: int)

  /** `resetAt` as a JavaScript condition: absent or 0 is false. */
  predicate Armed(resetAt: Option<int>) {
    resetAt.Some? && resetAt.value != 0
  }

  class Game {
    const initialPlayer: Player
    const studentBank: seq<Question>
    const adultBank: seq<Question>

    var player: Player
    var events: seq<Question>
    var currentQuestion: Option<Question>
    var phase: Phase
    var showCongrats: bool
    var showDailyLimit: bool
    var dailyCount: int
    var resetAt: Option<int>
    var countdown: int
    var mode: Mode
    var stored: Option<DailyLimit>

    /**
     * The quota is never exceeded, the student phase has no quota window,
     * and while a window is running the stored record matches it.
     */
    ghost predicate Valid()
      reads this
    {
      0 <= dailyCount <= DailyQuota
      && (phase == Student ==> dailyCount == 0 && resetAt == None)
      && (Armed(resetAt) ==> stored == Some(DailyLimit(dailyCount, resetAt.value)))
    }

    constructor (initialPlayer: Player, studentBank: seq<Question>, adultBank: seq<Question>)
      ensures Valid()
      ensures this.initialPlayer == initialPlayer && this.studentBank == studentBank && this.adultBank == adultBank
      ensures player == initialPlayer && events == [] && currentQuestion == None && phase == Student
      ensures !showCongrats && !showDailyLimit && dailyCount == 0 && resetAt == None && countdown == 0
      ensures mode == Main && stored == None
    {
      this.initialPlayer := initialPlayer;
      this.studentBank := studentBank;
      this.adultBank := adultBank;
      player := initialPlayer;
      events := [];
      currentQuestion := None;
      phase := Student;
      showCongrats := false;
      showDailyLimit := false;
      dailyCount := 0;
      resetAt := None;
      countdown := 0;
      mode := Main;
      stored := None;
    }

    /**
     * `loadNextQuestion(eventList)` as seen by a handler whose render saw
     * `closurePhase`: sets the question, the remaining events, or the
     * congratulations notice, and nothing else.
     */
    method LoadNextQuestion(eventList: seq<Question>, r: Draw, closurePhase: Phase)
      modifies this
      ensures var l := NextQuestion(closurePhase, eventList, adultBank, r);
        (l.Congratulate? ==> currentQuestion == None && showCongrats && events == old(events))
        && (l.Drawn? ==> currentQuestion == l.next && events == l.rest && showCongrats == old(showCongrats))
      ensures player == old(player) && phase == old(phase) && showDailyLimit == old(showDailyLimit)
      ensures dailyCount == old(dailyCount) && resetAt == old(resetAt) && countdown == old(countdown)
      ensures mode == old(mode) && stored == old(stored)
    {
      var length := |eventList|;
      if closurePhase == Student && length == 0 {
        currentQuestion := None;
        showCongrats := true;
        return;
      }
      var pool := if length > 0 then eventList else adultBank;
      if |pool| == 0 {
        events := [];
        currentQuestion := None;
        return;
      }
      var randomIndex := PickIndex(r, |pool|);
      events := RemoveAt(pool, randomIndex);
      currentQuestion := Some(pool[randomIndex]);
    }

    /**
     * Opening the modal: everything back to the start, and the first of
     * ten student events drawn from a shuffle of the student bank.
     */
    method Open(shuffled: seq<Question>, r: Draw)
      requires multiset(shuffled) == multiset(studentBank)
      modifies this
      ensures Valid()
      ensures player == initialPlayer && phase == Student && !showDailyLimit
      ensures dailyCount == 0 && resetAt == None && countdown == 0 && mode == Main && stored == old(stored)
      ensures var initialTen := shuffled[..Min(10, |shuffled|)];
        var l := NextQuestion(old(phase), initialTen, adultBank, r);
        (l.Congratulate? ==> currentQuestion == None && showCongrats && events == initialTen)
        && (l.Drawn? ==> currentQuestion == l.next && events == l.rest && !showCongrats)
    {
      var closurePhase := phase;
      player := initialPlayer;
      phase := Student;
      showCongrats := false;
      showDailyLimit := false;
      dailyCount := 0;
      resetAt := None;
      countdown := 0;
      mode := Main;
      var initialTen := shuffled[..Min(10, |shuffled|)];
      events := initialTen;
      LoadNextQuestion(initialTen, r, closurePhase);
    }

    /**
     * `handleAnswer`: refused once the adult quota is used up; otherwise
     * the effect is applied and clamped, an adult answer counts against the
     * quota, and the next question is loaded.
     */
    method HandleAnswer(effect: Effect, r: Draw)
      requires Valid()
      modifies this
      ensures Valid()
      ensures old(phase) == Adult && old(dailyCount) >= DailyQuota ==>
        showDailyLimit && player == old(player) && dailyCount == old(dailyCount)
        && events == old(events) && currentQuestion == old(currentQuestion)
        && showCongrats == old(showCongrats)
      ensures old(phase) == Adult && old(dailyCount) < DailyQuota && Armed(old(resetAt)) ==>
        stored == Some(DailyLimit(dailyCount, old(resetAt).value))
      ensures !(old(phase) == Adult && old(dailyCount) < DailyQuota && Armed(old(resetAt))) ==>
        stored == old(stored)
      ensures !(old(phase) == Adult && old(dailyCount) >= DailyQuota) ==>
        player == AnswerEffect(old(player), effect)
        && var l := NextQuestion(old(phase), old(events), adultBank, r);
        (l.Congratulate? ==> currentQuestion == None && showCongrats && events == old(events))
        && (l.Drawn? ==> currentQuestion == l.next && events == l.rest && showCongrats == old(showCongrats))
      ensures !(old(phase) == Adult && old(dailyCount) >= DailyQuota) && old(phase) == Adult ==>
        dailyCount == old(dailyCount) + 1
        && showDailyLimit == (old(showDailyLimit) || dailyCount >= DailyQuota)
      ensures old(phase) == Student ==> dailyCount == old(dailyCount) && showDailyLimit == old(showDailyLimit)
      ensures phase == old(phase) && resetAt == old(resetAt) && countdown == old(countdown) && mode == old(mode)
    {
      if phase == Adult && dailyCount >= DailyQuota {
        showDailyLimit := true;
        return;
      }
      var updated := ApplyEffect(player, effect);
      player := ClampStats(updated);
      if phase == Adult {
        var newCount := dailyCount + 1;
        dailyCount := newCount;
        if Armed(resetAt) {
          stored := Some(DailyLimit(newCount, resetAt.value));
        }
        if newCount >= DailyQuota {
          showDailyLimit := true;
        }
      }
      LoadNextQuestion(events, r, phase);
    }

    /**
     * `handleContinueToAdult`: the adult phase begins with the whole adult
     * bank as its pool and a fresh quota window ending a day from now.
     */
    method HandleContinueToAdult(now: int, r: Draw)
      requires Valid()
      modifies this
      ensures phase == Adult && dailyCount == 0 && resetAt == Some(now + Day)
      ensures stored == Some(DailyLimit(0, now + Day))
      ensures var l := NextQuestion(old(phase), adultBank, adultBank, r);
        (l.Congratulate? ==> currentQuestion == None && showCongrats && events == adultBank)
        && (l.Drawn? ==> currentQuestion == l.next && events == l.rest && !showCongrats)
      ensures player == old(player) && showDailyLimit == old(showDailyLimit)
      ensures countdown == old(countdown) && mode == old(mode)
      ensures Valid()
    {
      var closurePhase := phase;
      showCongrats := false;
      phase := Adult;
      events := adultBank;
      LoadNextQuestion(adultBank, r, closurePhase);
      var next := now + Day;
      dailyCount := 0;
      resetAt := Some(next);
      stored := Some(DailyLimit(0, next));
    }

    /**
     * One tick of the countdown interval: the time left is shown, and when
     * it reaches zero a new window starts with an empty quota.
     */
    method Tick(now: int)
      requires Valid()
      modifies this
      ensures !Armed(old(resetAt)) ==>
        countdown == old(countdown) && resetAt == old(resetAt) && dailyCount == old(dailyCount) && stored == old(stored) && showDailyLimit == old(showDailyLimit)
      ensures Armed(old(resetAt)) ==> countdown == Max(0, old(resetAt).value - now)
      ensures Armed(old(resetAt)) && now < old(resetAt).value ==>
        resetAt == old(resetAt) && dailyCount == old(dailyCount) && stored == old(stored)
        && showDailyLimit == old(showDailyLimit)
      ensures Armed(old(resetAt)) && now >= old(resetAt).value ==>
        dailyCount == 0 && !showDailyLimit && resetAt == Some(now + Day)
        && stored == Some(DailyLimit(0, now + Day))
      ensures player == old(player) && events == old(events) && currentQuestion == old(currentQuestion)
      ensures phase == old(phase) && showCongrats == old(showCongrats) && mode == old(mode)
      ensures Valid()
    {
      if !Armed(resetAt) {
        return;
      }
      var diff := Max(0, resetAt.value - now);
      countdown := diff;
      if diff == 0 {
        var next := now + Day;
        dailyCount := 0;
        showDailyLimit := false;
        resetAt := Some(next);
        stored := Some(DailyLimit(0, next));
      }
    }

    /** `handleStockQuizAnswer`: only literacy moves, by +2 or -1. */
    method HandleStockQuizAnswer(isCorrect: bool)
      modifies this
      ensures player == old(player).(literacy := LiteracyAfter(old(player).literacy, isCorrect, 2))
      ensures events == old(events) && currentQuestion == old(currentQuestion) && phase == old(phase)
      ensures dailyCount == old(dailyCount) && resetAt == old(resetAt) && stored == old(stored)
      ensures showCongrats == old(showCongrats) && showDailyLimit == old(showDailyLimit)
      ensures countdown == old(countdown) && mode == old(mode)
    {
      var updated := player;
      if isCorrect {
        updated := updated.(literacy := Min(100, updated.literacy + 2));
      } else {
        updated := updated.(literacy := Max(0, updated.literacy - 1));
      }
      player := updated;
    }

    /** `handleTenYearBetAnswer`: only literacy moves, by +1 or -1. */
    method HandleTenYearBetAnswer(isCorrect: bool)
      modifies this
      ensures player == old(player).(literacy := LiteracyAfter(old(player).literacy, isCorrect, 1))
      ensures events == old(events) && currentQuestion == old(currentQuestion) && phase == old(phase)
      ensures dailyCount == old(dailyCount) && resetAt == old(resetAt) && stored == old(stored)
      ensures showCongrats == old(showCongrats) && showDailyLimit == old(showDailyLimit)
      ensures countdown == old(countdown) && mode == old(mode)
    {
      var updated := player;
      if isCorrect {
        updated := updated.(literacy := Min(100, updated.literacy + 1));
      } else {
        updated := updated.(literacy := Max(0, updated.literacy - 1));
      }
      player := updated;
    }
  }
}
