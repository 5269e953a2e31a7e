/** The Thai Mental State Examination quiz: six domains scored from the
    examiner's buttons and the subject's typed answers, a 30-point total and
    the impairment cut-off (a total below 24). The answers live in one quiz
    object whose fields are the screen's state; the scores are pure functions
    of those fields. */
module Tmse {
  import opened Optional
  import opened JsText
  import opened WordRecall

  /** The three words the subject repeats at registration and recalls at the end. */
  const RegistrationWords: seq<string> := ["ต้นไม้", "รถยนต์", "มือ"]
  /** The seven day tiles the subject arranges. The screen lists them by their Thai
      names (DayName); the order only ever rearranges these seven tiles. */
  datatype Day = Sunday | Saturday | Friday | Thursday | Wednesday | Tuesday | Monday

  function DayName(d: Day): string {
    match d
    case Sunday => "อาทิตย์"
    case Saturday => "เสาร์"
    case Friday => "ศุกร์"
    case Thursday => "พฤหัสบดี"
    case Wednesday => "พุธ"
    case Tuesday => "อังคาร"
    case Monday => "จันทร์"
  }

  /** The week recited backwards from Sunday: the attention answer key. */
  const DaysOrder: seq<Day> := [Sunday, Saturday, Friday, Thursday, Wednesday, Tuesday, Monday]
  /** The answer key as the screen spells it. */
  const DayNames: seq<string> := ["อาทิตย์", "เสาร์", "ศุกร์", "พฤหัสบดี", "พุธ", "อังคาร", "จันทร์"]

  /** The tiles stand for the key's strings one for one: the key's days are named
      by the key's strings in order, and no two days share a name, so comparing
      days is comparing their names. */
  lemma DayNamesMatchKey()
    ensures |DaysOrder| == |DayNames|
    ensures forall i :: 0 <= i < |DaysOrder| ==> DayName(DaysOrder[i]) == DayNames[i]
    ensures forall d1: Day, d2: Day :: DayName(d1) == DayName(d2) ==> d1 == d2
  {
  }
  /** 100 - 7, - 7, - 7: the calculation answer key. */
  const CalcAnswers: seq<int> := [93, 86, 79]
  /** Attention credit stops at five days even though the key has seven. */
  const AttentionCap: int := 5
  /** A total below this is classed as cognitive impairment. */
  const ImpairedBelow: int := 24
  const MaxTotal: int := 30

  // ---------------------------------------------------------------- orientation

  /** One point for an answer marked correct (1); unset and wrong answers give none. */
  function Point(v: Option<int>): nat {
    if v == Some(1) then 1 else 0
  }

  /** `oriTotal`: how many orientation answers are marked correct. */
  function OriTotal(ori: seq<Option<int>>): (r: nat)
    ensures r <= |ori|
  {
    if ori == [] then 0 else Point(ori[0]) + OriTotal(ori[1..])
  }

  /** Marking one orientation answer moves the total by exactly the change in that
      answer's point: the other answers keep counting as before. */
  lemma {:induction false} OriTotalUpdate(ori: seq<Option<int>>, i: int, v: Option<int>)
    requires 0 <= i < |ori|
    ensures OriTotal(ori[i := v]) == OriTotal(ori) - Point(ori[i]) + Point(v)
  {
    if i == 0 {
      assert ori[i := v][1..] == ori[1..];
    } else {
      assert ori[i := v][1..] == ori[1..][i - 1 := v];
      OriTotalUpdate(ori[1..], i - 1, v);
    }
  }

  /** Six points exactly when every question is marked correct; an unset or wrong
      answer anywhere costs a point. */
  lemma {:induction false} OriTotalFull(ori: seq<Option<int>>)
    ensures OriTotal(ori) == |ori| <==> forall i :: 0 <= i < |ori| ==> ori[i] == Some(1)
  {
    if ori != [] {
      OriTotalFull(ori[1..]);
      assert (forall i :: 0 <= i < |ori| ==> ori[i] == Some(1))
         <==> ori[0] == Some(1) && forall i :: 0 <= i < |ori| - 1 ==> ori[1..][i] == Some(1);
    }
  }

  // ---------------------------------------------------------------- language

  /** The language sub-items: two namings, a repeated sentence, a three-step
      command (one point per step), reading, the figure copy (0-2) and the
      similarity question. */
  datatype Language = Language(naming1: Option<int>, naming2: Option<int>, repeat: Option<int>,
                               commands: seq<Option<int>>, read: Option<int>,
                               copy: Option<int>, similarity: Option<int>)

  /** A language sub-item the examiner can mark; `Command(k)` is step k of the command. */
  datatype LangItem = Naming1 | Naming2 | Repeat | Command(k: nat) | Read | Copy | Similarity

  const BlankLanguage: Language := Language(None, None, None, [None, None, None], None, None, None)

  /** The highest mark of an item's button row. */
  function MaxPoints(item: LangItem): int {
    if item.Copy? then 2 else 1
  }

  predicate HasItem(l: Language, item: LangItem) {
    item.Command? ==> item.k < |l.commands|
  }

  function LangGet(l: Language, item: LangItem): Option<int>
    requires HasItem(l, item)
  {
    match item
    case Naming1 => l.naming1
    case Naming2 => l.naming2
    case Repeat => l.repeat
    case Command(k) => l.commands[k]
    case Read => l.read
    case Copy => l.copy
    case Similarity => l.similarity
  }

  /** Marks one item with `v` and leaves every other item as it was. */
  function LangSet(l: Language, item: LangItem, v: int): (r: Language)
    requires HasItem(l, item)
    ensures |r.commands| == |l.commands|
    ensures LangGet(r, item) == Some(v)
    ensures forall other :: HasItem(l, other) && other != item ==> LangGet(r, other) == LangGet(l, other)
  {
    match item
    case Naming1 => l.(naming1 := Some(v))
    case Naming2 => l.(naming2 := Some(v))
    case Repeat => l.(repeat := Some(v))
    case Command(k) => l.(commands := l.commands[k := Some(v)])
    case Read => l.(read := Some(v))
    case Copy => l.(copy := Some(v))
    case Similarity => l.(similarity := Some(v))
  }

  /** The values the buttons can give: yes/no items in {0, 1}, the copy in {0, 1, 2},
      three command steps; any of them may still be unset. */
  predicate LangWellFormed(l: Language) {
    Within(l.naming1, 1) && Within(l.naming2, 1) && Within(l.repeat, 1) &&
    |l.commands| == 3 && (forall i :: 0 <= i < |l.commands| ==> Within(l.commands[i], 1)) &&
    Within(l.read, 1) && Within(l.copy, 2) && Within(l.similarity, 1)
  }

  /** The command steps summed left to right with unset steps as 0 (the `reduce`). */
  function SumOrZero(vs: seq<Option<int>>): int {
    if vs == [] then 0 else SumOrZero(vs[..|vs| - 1]) + OrZero(vs[|vs| - 1])
  }

  /** Steps marked 0 or 1, or unset, sum to at most the number of steps. */
  lemma {:induction false} SumOrZeroBounds(vs: seq<Option<int>>)
    ensures (forall i :: 0 <= i < |vs| ==> Within(vs[i], 1)) ==> 0 <= SumOrZero(vs) <= |vs|
  {
    if vs != [] {
      SumOrZeroBounds(vs[..|vs| - 1]);
    }
  }

  lemma {:induction false} SumOrZeroUpdate(vs: seq<Option<int>>, i: int, v: Option<int>)
    requires 0 <= i < |vs|
    ensures SumOrZero(vs[i := v]) == SumOrZero(vs) - OrZero(vs[i]) + OrZero(v)
  {
    var n := |vs|;
    if i == n - 1 {
      assert vs[i := v][..n - 1] == vs[..n - 1];
    } else {
      assert vs[i := v][..n - 1] == vs[..n - 1][i := v];
      SumOrZeroUpdate(vs[..n - 1], i, v);
    }
  }

  /** `langTotal`: every sub-item added up, unset items counting 0; at most 10. */
  function LangTotal(l: Language): (r: int)
    ensures LangWellFormed(l) ==> 0 <= r <= 10
  {
    SumOrZeroBounds(l.commands);
    OrZero(l.naming1) + OrZero(l.naming2) + OrZero(l.repeat) + SumOrZero(l.commands)
      + OrZero(l.read) + OrZero(l.copy) + OrZero(l.similarity)
  }

  /** Marking an item moves the language total by exactly the change in that
      item, and a mark inside the item's button range keeps the sheet well formed. */
  lemma LangSetTotal(l: Language, item: LangItem, v: int)
    requires HasItem(l, item)
    ensures LangTotal(LangSet(l, item, v)) == LangTotal(l) - OrZero(LangGet(l, item)) + v
    ensures LangWellFormed(l) && 0 <= v <= MaxPoints(item) ==> LangWellFormed(LangSet(l, item, v))
  {
    if item.Command? {
      SumOrZeroUpdate(l.commands, item.k, Some(v));
    }
  }

  /** The three command steps add up one by one. */
  lemma SumOrZeroThree(vs: seq<Option<int>>)
    requires |vs| == 3
    ensures SumOrZero(vs) == OrZero(vs[0]) + OrZero(vs[1]) + OrZero(vs[2])
  {
    var one, two := vs[..1], vs[..2];
    assert one[..0] == [] && one[0] == vs[0];
    assert SumOrZero(one) == OrZero(vs[0]);
    assert two[..1] == one && two[1] == vs[1];
  }

  /** All unset scores 0; every item at its highest mark scores the full 10. */
  lemma LangTotalExtremes()
    ensures LangTotal(BlankLanguage) == 0
    ensures LangTotal(Language(Some(1), Some(1), Some(1), [Some(1), Some(1), Some(1)],
                               Some(1), Some(2), Some(1))) == 10
  {
    SumOrZeroThree(BlankLanguage.commands);
    SumOrZeroThree([Some(1), Some(1), Some(1)]);
  }

  // ---------------------------------------------------------------- attention

  /** Length of the longest common prefix of two sequences. */
  function PrefixMatch<T(==)>(a: seq<T>, b: seq<T>): (r: nat)
    ensures r <= |a| && r <= |b|
    ensures forall i :: 0 <= i < r ==> a[i] == b[i]
    ensures r < |a| && r < |b| ==> a[r] != b[r]
  {
    if a == [] || b == [] || a[0] != b[0] then 0
    else
      var r := 1 + PrefixMatch(a[1..], b[1..]);
      assert forall i :: 1 <= i < r ==> a[i] == a[1..][i - 1] && b[i] == b[1..][i - 1];
      r
  }

  /** The common prefix reaches n exactly when the first n items agree. */
  lemma PrefixMatchAtLeast<T>(a: seq<T>, b: seq<T>, n: nat)
    ensures PrefixMatch(a, b) >= n <==> n <= |a| && n <= |b| && a[..n] == b[..n]
  {
    var r := PrefixMatch(a, b);
    if n <= |a| && n <= |b| && a[..n] == b[..n] {
      assert forall i :: 0 <= i < n ==> a[i] == a[..n][i] && b[i] == b[..n][i];
    }
  }

  function Min(x: int, y: int): int {
    if x <= y then x else y
  }

  /** `evaluateAttention`'s score: the days recited correctly before the first
      mistake, capped at five. */
  function AttentionScore(order: seq<Day>): (r: nat)
    ensures r <= AttentionCap
  {
    Min(PrefixMatch(order, DaysOrder), AttentionCap)
  }

  /** Full attention marks exactly when the first five days are in the right order;
      the last two days never matter. */
  lemma AttentionFullMarks(order: seq<Day>)
    ensures AttentionScore(order) == AttentionCap <==> |order| >= 5 && order[..5] == DaysOrder[..5]
  {
    PrefixMatchAtLeast(order, DaysOrder, 5);
  }

  /** A wrong day at position k leaves at most k points, whatever follows it. */
  lemma AttentionMismatch(order: seq<Day>, k: int)
    requires 0 <= k < |order| && k < |DaysOrder| && order[k] != DaysOrder[k]
    ensures AttentionScore(order) <= k
  {
  }

  /** Attention depends only on the days before the first mistake: two orders
      that agree up to and including a mistake at k score the same. */
  lemma {:induction false} AttentionStopsAtMistake(a: seq<Day>, b: seq<Day>, k: int)
    requires 0 <= k < |a| && k < |b| && k < |DaysOrder|
    requires a[..k + 1] == b[..k + 1] && a[k] != DaysOrder[k]
    ensures AttentionScore(a) == AttentionScore(b)
  {
    var p := PrefixMatch(a, DaysOrder);
    var q := PrefixMatch(b, DaysOrder);
    assert forall i :: 0 <= i <= k ==> a[i] == a[..k + 1][i] && b[i] == b[..k + 1][i];
    assert p == q;
  }

  /** `[...DAYS_ORDER].reverse()`. */
  function Reversed<T>(s: seq<T>): (r: seq<T>)
    ensures |r| == |s|
    ensures forall i :: 0 <= i < |s| ==> r[i] == s[|s| - 1 - i]
  {
    if s == [] then []
    else
      var r := [s[|s| - 1]] + Reversed(s[..|s| - 1]);
      assert forall i :: 1 <= i < |s| ==> r[i] == s[..|s| - 1][|s| - 1 - i];
      r
  }

  /** The order the days are listed in before the subject rearranges them. */
  const InitialDayOrder: seq<Day> := Reversed(DaysOrder)

  /** Seven tiles, each day among them: with seven days to place, a rearrangement
      of the week. */
  predicate IsWeekOrder(order: seq<Day>) {
    |order| == |DaysOrder| && forall d: Day :: d in order
  }

  /** The starting list is the week from Monday to Sunday: a rearrangement of the
      week that scores nothing, since it starts with Monday where Sunday is expected. */
  lemma InitialOrderScoresZero()
    ensures InitialDayOrder == [Monday, Tuesday, Wednesday, Thursday, Friday, Saturday, Sunday]
    ensures IsWeekOrder(InitialDayOrder)
    ensures AttentionScore(InitialDayOrder) == 0
  {
    var r := InitialDayOrder;
    assert r[0] == Monday && r[1] == Tuesday && r[2] == Wednesday && r[3] == Thursday;
    assert r[4] == Friday && r[5] == Saturday && r[6] == Sunday;
    forall d: Day
      ensures d in r
    {
      match d
      case Monday => assert r[0] == d;
      case Tuesday => assert r[1] == d;
      case Wednesday => assert r[2] == d;
      case Thursday => assert r[3] == d;
      case Friday => assert r[4] == d;
      case Saturday => assert r[5] == d;
      case Sunday => assert r[6] == d;
    }
  }

  /** The whole week in order earns five points, not seven. */
  lemma FullOrderScoresFive()
    ensures PrefixMatch(DaysOrder, DaysOrder) == 7
    ensures AttentionScore(DaysOrder) == AttentionCap
  {
  }

  /** Exchanges two positions of a sequence. */
  function Swap<T>(s: seq<T>, i: int, j: int): (r: seq<T>)
    requires 0 <= i < |s| && 0 <= j < |s|
    ensures |r| == |s| && r[i] == s[j] && r[j] == s[i]
    ensures forall k :: 0 <= k < |s| && k != i && k != j ==> r[k] == s[k]
    ensures multiset(r) == multiset(s)
  {
    s[i := s[j]][j := s[i]]
  }

  /** Swapping two tiles keeps a rearrangement of the week one. */
  lemma SwapKeepsWeek(s: seq<Day>, i: int, j: int)
    requires IsWeekOrder(s) && 0 <= i < |s| && 0 <= j < |s|
    ensures IsWeekOrder(Swap(s, i, j))
  {
    forall d: Day
      ensures d in Swap(s, i, j)
    {
      assert d in s;
      assert d in multiset(Swap(s, i, j));
    }
  }

  // ---------------------------------------------------------------- calculation

  /** What each box reads as under `parseInt`. */
  function ParsedAnswers(answers: seq<string>): (r: seq<Option<int>>)
    ensures |r| == |answers|
    ensures forall i :: 0 <= i < |answers| ==> r[i] == ParseInt(answers[i])
  {
    seq(|answers|, i requires 0 <= i < |answers| => ParseInt(answers[i]))
  }

  /** One point when the value read from box i is the i-th step of the subtraction
      chain; there is no key beyond the third box. */
  function Verdict(v: Option<int>, i: int): nat {
    if 0 <= i < |CalcAnswers| && v == Some(CalcAnswers[i]) then 1 else 0
  }

  /** How many read values match their own step of the key. */
  function KeyMatches(values: seq<Option<int>>): (r: nat)
    ensures r <= |values|
  {
    if values == [] then 0
    else
      var n := |values|;
      KeyMatches(values[..n - 1]) + Verdict(values[n - 1], n - 1)
  }

  /** `evaluateCalc`'s score: how many boxes read as their own step of the key. */
  function CalcScore(answers: seq<string>): (r: nat)
    ensures r <= |answers|
  {
    KeyMatches(ParsedAnswers(answers))
  }

  lemma {:induction false} KeyMatchesUpdate(values: seq<Option<int>>, k: int, v: Option<int>)
    requires 0 <= k < |values|
    ensures KeyMatches(values[k := v]) == KeyMatches(values) - Verdict(values[k], k) + Verdict(v, k)
  {
    var n := |values|;
    if k == n - 1 {
      assert values[k := v][..n - 1] == values[..n - 1];
    } else {
      assert values[k := v][..n - 1] == values[..n - 1][k := v];
      KeyMatchesUpdate(values[..n - 1], k, v);
    }
  }

  /** Each box is judged on its own: retyping one box changes the score by the
      change in that box's own verdict and nothing else. */
  lemma CalcUpdate(answers: seq<string>, k: int, text: string)
    requires 0 <= k < |answers|
    ensures CalcScore(answers[k := text])
         == CalcScore(answers) - Verdict(ParseInt(answers[k]), k) + Verdict(ParseInt(text), k)
  {
    assert ParsedAnswers(answers[k := text]) == ParsedAnswers(answers)[k := ParseInt(text)];
    KeyMatchesUpdate(ParsedAnswers(answers), k, ParseInt(text));
  }

  lemma {:induction false} KeyMatchesFull(values: seq<Option<int>>)
    ensures KeyMatches(values) == |values| <==> forall i :: 0 <= i < |values| ==> Verdict(values[i], i) == 1
  {
    if values != [] {
      var n := |values|;
      var init := values[..n - 1];
      KeyMatchesFull(init);
      assert forall i :: 0 <= i < n - 1 ==> init[i] == values[i];
    }
  }

  /** Full marks exactly when every box reads as its own step of the key (so never
      with more boxes than the key has steps). */
  lemma CalcFull(answers: seq<string>)
    ensures CalcScore(answers) == |answers|
        <==> forall i :: 0 <= i < |answers| ==> i < |CalcAnswers| && ParseInt(answers[i]) == Some(CalcAnswers[i])
  {
    KeyMatchesFull(ParsedAnswers(answers));
  }

  /** The three boxes of the screen, verdict by verdict. */
  lemma KeyMatchesThree(values: seq<Option<int>>)
    requires |values| == 3
    ensures KeyMatches(values) == Verdict(values[0], 0) + Verdict(values[1], 1) + Verdict(values[2], 2)
  {
    var one, two := values[..1], values[..2];
    assert one[..0] == [] && one[0] == values[0];
    assert KeyMatches(one) == Verdict(values[0], 0);
    assert two[..1] == one && two[1] == values[1];
  }

  /** A box starting with two digits and no third one reads as that two-digit number. */
  lemma ParseTwoDigits(s: string)
    requires |s| >= 2 && IsDigit(s[0]) && IsDigit(s[1]) && (|s| == 2 || !IsDigit(s[2]))
    ensures ParseInt(s) == Some(10 * (s[0] as int - '0' as int) + (s[1] as int - '0' as int))
  {
    ParseIntAt(s, 0, 2);
  }

  /** Blank boxes score nothing. */
  lemma CalcBlank()
    ensures CalcScore(["", "", ""]) == 0
  {
    var answers := ["", "", ""];
    assert ParseInt("") == None;
    assert ParsedAnswers(answers) == [None, None, None];
    KeyMatchesThree(ParsedAnswers(answers));
  }

  /** The key scores 3. */
  lemma CalcKey()
    ensures CalcScore(["93", "86", "79"]) == 3
  {
    var answers := ["93", "86", "79"];
    ParseTwoDigits("93");
    ParseTwoDigits("86");
    ParseTwoDigits("79");
    assert ParsedAnswers(answers) == [Some(93), Some(86), Some(79)];
    KeyMatchesThree(ParsedAnswers(answers));
  }

  /** A number followed by other text still counts, since `parseInt` stops at the
      first non-digit, and a wrong middle answer costs only its own point. */
  lemma CalcTrailingText()
    ensures CalcScore(["93.5", "80", "79"]) == 2
  {
    var answers := ["93.5", "80", "79"];
    ParseTwoDigits("93.5");
    ParseTwoDigits("80");
    ParseTwoDigits("79");
    assert ParsedAnswers(answers) == [Some(93), Some(80), Some(79)];
    KeyMatchesThree(ParsedAnswers(answers));
  }

  // ---------------------------------------------------------------- recall

  /** A correct word typed into every box scores once per box, padded or not. */
  lemma RecallCountsSlots()
    ensures CountRecalled(["มือ", " มือ", "มือ "], RegistrationWords) == 3
  {
    var words := ["มือ", " มือ", "มือ "];
    TrimsToHand();
    assert RegistrationWords[2] == "มือ";
    CountRecalledThree(words, RegistrationWords);
  }

  lemma TrimsToHand()
    ensures Trim("มือ") == "มือ" && Trim(" มือ") == "มือ" && Trim("มือ ") == "มือ"
  {
    var w := "มือ";
    assert Trim(w) == w by {
      TrimPadded([], w, []);
      assert [] + w + [] == w;
    }
    assert Trim(" มือ") == w by {
      TrimPadded(" ", w, []);
      assert " " + w + [] == " มือ";
    }
    assert Trim("มือ ") == w by {
      TrimPadded([], w, " ");
      assert [] + w + " " == "มือ ";
    }
  }

  /** The same word in all three boxes scores 3, while the feedback under the
      boxes ticks that word alone: the score counts boxes, the ticks count words. */
  lemma RepeatedWordTicksOnce()
    ensures CountRecalled(["มือ", "มือ", "มือ"], RegistrationWords) == 3
    ensures DistinctRecalled(["มือ", "มือ", "มือ"], RegistrationWords) == 1
  {
    var hand := "มือ";
    var words := [hand, hand, hand];
    assert Trim(hand) == hand && hand == RegistrationWords[2] by {
      TrimsToHand();
    }
    assert CountRecalled(words, RegistrationWords) == 3 by {
      CountRecalledThree(words, RegistrationWords);
    }
    assert DistinctRecalled(words, RegistrationWords) == 1 by {
      DistinctRecalledThree(words, RegistrationWords);
      RecalledThree(words, RegistrationWords[0]);
      RecalledThree(words, RegistrationWords[1]);
      RecalledThree(words, RegistrationWords[2]);
      assert |RegistrationWords[0]| == 6 && |RegistrationWords[1]| == 6 && |hand| == 3;
    }
  }

  /** One word and two blank boxes: the blanks repeat but fill no target, so the
      score and the ticks agree at 1. */
  lemma BlankBoxesAgree()
    ensures CountRecalled(["มือ", "", ""], RegistrationWords) == 1
    ensures DistinctRecalled(["มือ", "", ""], RegistrationWords) == 1
  {
    var words := ["มือ", "", ""];
    assert Trim(words[0]) == "มือ" && Trim(words[1]) == "" && Trim(words[2]) == "" by {
      TrimsToHand();
      TrimPadded([], [], []);
    }
    assert RegistrationWords[0][0] != RegistrationWords[1][0] &&
           |RegistrationWords[0]| == 6 && |RegistrationWords[1]| == 6 && |RegistrationWords[2]| == 3;
    assert "" !in RegistrationWords;
    assert CountRecalled(words, RegistrationWords) == 1 by {
      CountRecalledThree(words, RegistrationWords);
    }
    CountsAgreeWithoutRepeats(words, RegistrationWords);
  }

  /** Blank boxes recall nothing. */
  lemma RecallBlank()
    ensures CountRecalled(["", "", ""], RegistrationWords) == 0
  {
    TrimPadded([], [], []);
    CountRecalledNone(["", "", ""], RegistrationWords);
  }

  // ---------------------------------------------------------------- totals

  /** The six domain scores as the result screen lists them. */
  datatype Report = Report(orientation: int, registration: int, attention: int,
                           calculation: int, language: int, recall: int)
  {
    /** `totalScore`: at most 30 when every domain is within its maximum. */
    function Total(): (t: int)
      ensures WithinMaxima() ==> 0 <= t <= MaxTotal
    {
      orientation + registration + attention + calculation + language + recall
    }

    /** `impaired`. */
    predicate Impaired() {
      Total() < ImpairedBelow
    }

    /** Every domain within its own maximum: 6, 3, 5, 3, 10 and 3. */
    predicate WithinMaxima() {
      0 <= orientation <= 6 && 0 <= registration <= 3 && 0 <= attention <= AttentionCap &&
      0 <= calculation <= 3 && 0 <= language <= 10 && 0 <= recall <= 3
    }
  }

  /** The threshold sits between 23 and 24. */
  lemma ImpairmentBoundary()
    ensures !Report(6, 3, 5, 3, 7, 0).Impaired() && Report(6, 3, 5, 3, 7, 0).Total() == 24
    ensures Report(6, 3, 5, 3, 6, 0).Impaired() && Report(6, 3, 5, 3, 6, 0).Total() == 23
  {
  }

  /** Everything on the quiz screen at one moment. */
  datatype Sheet = Sheet(oriScores: seq<Option<int>>, regScore: Option<int>,
                         dayOrder: seq<Day>, attScore: Option<int>,
                         calcAnswers: seq<string>, calcScore: Option<int>,
                         langScores: Language,
                         recallWords: seq<string>, recallScore: Option<int>,
                         showResult: bool)
  {
    /** The values the screen can produce, and each cached score either cleared
        or equal to the score of the answers now on the sheet. */
    predicate WellFormed() {
      |oriScores| == 6 && (forall i :: 0 <= i < |oriScores| ==> Within(oriScores[i], 1)) &&
      Within(regScore, 3) &&
      IsWeekOrder(dayOrder) &&
      Cached(attScore, AttentionScore(dayOrder)) &&
      |calcAnswers| == 3 && Cached(calcScore, CalcScore(calcAnswers)) &&
      LangWellFormed(langScores) &&
      |recallWords| == 3 && Cached(recallScore, CountRecalled(recallWords, RegistrationWords))
    }

    /** The domain scores with every unset value counted as 0; on a sheet the
        screen can produce, each is within its domain's maximum. */
    function Scores(): (r: Report)
      ensures WellFormed() ==> r.WithinMaxima()
    {
      Report(OriTotal(oriScores), OrZero(regScore), OrZero(attScore), OrZero(calcScore),
             LangTotal(langScores), OrZero(recallScore))
    }
  }

  /** On any sheet the screen can produce, each domain stays within its maximum
      and the total within 0..30, however many items are still unset. */
  lemma ScoresBounded(s: Sheet)
    requires s.WellFormed()
    ensures s.Scores().WithinMaxima()
    ensures 0 <= s.Scores().Total() <= MaxTotal
  {
  }

  const InitialSheet: Sheet :=
    Sheet([None, None, None, None, None, None], None, InitialDayOrder, None,
          ["", "", ""], None, BlankLanguage, ["", "", ""], None, false)

  /** A fresh quiz is well formed, totals 0 and, if opened straight away, reads as impaired. */
  lemma InitialSheetScoresZero()
    ensures InitialSheet.WellFormed()
    ensures InitialSheet.Scores().Total() == 0 && InitialSheet.Scores().Impaired()
  {
    InitialOrderScoresZero();
    LangTotalExtremes();
  }

  // ---------------------------------------------------------------- the quiz

  /** The quiz screen: one field per piece of screen state, one method per handler. */
  class Quiz {
    var oriScores: seq<Option<int>>
    var regScore: Option<int>
    var dayOrder: seq<Day>
    var attScore: Option<int>
    var calcAnswers: seq<string>
    var calcScore: Option<int>
    var langScores: Language
    var recallWords: seq<string>
    var recallScore: Option<int>
    var showResult: bool

    function State(): Sheet
      reads this
    {
      Sheet(oriScores, regScore, dayOrder, attScore, calcAnswers, calcScore,
            langScores, recallWords, recallScore, showResult)
    }

    predicate Valid()
      reads this
    {
      State().WellFormed()
    }

    constructor ()
      ensures State() == InitialSheet && Valid()
    {
      oriScores := [None, None, None, None, None, None];
      regScore := None;
      dayOrder := InitialDayOrder;
      attScore := None;
      calcAnswers := ["", "", ""];
      calcScore := None;
      langScores := BlankLanguage;
      recallWords := ["", "", ""];
      recallScore := None;
      showResult := false;
      new;
      InitialSheetScoresZero();
    }

    /** Marks orientation question i right (1) or wrong (0). */
    method SetOrientation(i: int, v: int)
      requires Valid() && !showResult
      requires 0 <= i < 6 && 0 <= v <= 1
      modifies this
      ensures Valid()
      ensures State() == old(State()).(oriScores := old(oriScores)[i := Some(v)])
      ensures OriTotal(oriScores) == old(OriTotal(oriScores)) - Point(old(oriScores[i])) + Point(Some(v))
    {
      OriTotalUpdate(oriScores, i, Some(v));
      oriScores := oriScores[i := Some(v)];
    }

    /** Records how many of the three words the subject repeated. */
    method SetRegistration(n: int)
      requires Valid() && !showResult
      requires 0 <= n <= 3
      modifies this
      ensures Valid()
      ensures State() == old(State()).(regScore := Some(n))
    {
      regScore := Some(n);
    }

    /** Moves day i one place up (dir = -1) or down (dir = 1): the day swaps with its
        neighbour and the attention score is cleared; a move off either end does nothing. */
    method MoveDay(i: int, dir: int)
      requires Valid() && !showResult
      requires 0 <= i < |dayOrder|
      modifies this
      ensures Valid()
      ensures var j := i + dir;
        if 0 <= j < |old(dayOrder)|
        then State() == old(State()).(dayOrder := Swap(old(dayOrder), i, j), attScore := None)
        else State() == old(State())
      ensures multiset(dayOrder) == multiset(old(dayOrder))
    {
      var j := i + dir;
      if j < 0 || j >= |dayOrder| {
        return;
      }
      SwapKeepsWeek(dayOrder, i, j);
      dayOrder := Swap(dayOrder, i, j);
      attScore := None;
    }

    /** Scores the day order: counts matching days from the top, stopping at the
        first mismatch, and keeps at most five. */
    method EvaluateAttention()
      requires Valid() && !showResult
      modifies this
      ensures Valid()
      ensures State() == old(State()).(attScore := Some(AttentionScore(dayOrder)))
    {
      var sc := 0;
      var i := 0;
      while i < |DaysOrder|
        invariant 0 <= i <= |DaysOrder| && sc == i
        invariant forall k :: 0 <= k < i ==> k < |dayOrder| && dayOrder[k] == DaysOrder[k]
      {
        if i < |dayOrder| && dayOrder[i] == DaysOrder[i] {
          sc := sc + 1;
        } else {
          break;
        }
        i := i + 1;
      }
      assert sc == PrefixMatch(dayOrder, DaysOrder);
      attScore := Some(Min(sc, AttentionCap));
    }

    /** Types into calculation box i; the calculation score is cleared. */
    method EditCalc(i: int, text: string)
      requires Valid() && !showResult
      requires 0 <= i < 3
      modifies this
      ensures Valid()
      ensures State() == old(State()).(calcAnswers := old(calcAnswers)[i := text], calcScore := None)
    {
      calcAnswers := calcAnswers[i := text];
      calcScore := None;
    }

    /** Scores the three calculation answers against 93, 86 and 79. */
    method EvaluateCalc()
      requires Valid() && !showResult
      modifies this
      ensures Valid()
      ensures State() == old(State()).(calcScore := Some(CalcScore(calcAnswers)))
    {
      ghost var values := ParsedAnswers(calcAnswers);
      var sc := 0;
      var i := 0;
      while i < |calcAnswers|
        invariant 0 <= i <= |calcAnswers|
        invariant sc == KeyMatches(values[..i])
      {
        assert values[..i + 1][..i] == values[..i];
        if i < |CalcAnswers| && ParseInt(calcAnswers[i]) == Some(CalcAnswers[i]) {
          sc := sc + 1;
        }
        i := i + 1;
      }
      assert values[..i] == values;
      calcScore := Some(sc);
    }

    /** Marks one language sub-item with the value of the button pressed. */
    method SetLanguage(item: LangItem, v: int)
      requires Valid() && !showResult
      requires HasItem(langScores, item) && 0 <= v <= MaxPoints(item)
      modifies this
      ensures Valid()
      ensures State() == old(State()).(langScores := LangSet(old(langScores), item, v))
      ensures LangTotal(langScores) == old(LangTotal(langScores)) - OrZero(old(LangGet(langScores, item))) + v
    {
      LangSetTotal(langScores, item, v);
      langScores := LangSet(langScores, item, v);
    }

    /** Types into recall box i; the recall score is cleared. */
    method EditRecall(i: int, text: string)
      requires Valid() && !showResult
      requires 0 <= i < 3
      modifies this
      ensures Valid()
      ensures State() == old(State()).(recallWords := old(recallWords)[i := text], recallScore := None)
    {
      recallWords := recallWords[i := text];
      recallScore := None;
    }

    /** Scores the recall boxes: one point per box whose trimmed text is a registration word. */
    method EvaluateRecall()
      requires Valid() && !showResult
      modifies this
      ensures Valid()
      ensures State() == old(State()).(recallScore := Some(CountRecalled(recallWords, RegistrationWords)))
    {
      var sc := 0;
      var i := 0;
      while i < |recallWords|
        invariant 0 <= i <= |recallWords|
        invariant sc == CountRecalled(recallWords[..i], RegistrationWords)
      {
        assert recallWords[..i + 1][..i] == recallWords[..i];
        if Trim(recallWords[i]) in RegistrationWords {
          sc := sc + 1;
        }
        i := i + 1;
      }
      assert recallWords[..i] == recallWords;
      recallScore := Some(sc);
    }

    /** Opens the result screen, whatever is still unset, and returns what it shows. */
    method ShowResult() returns (report: Report)
      requires Valid() && !showResult
      modifies this
      ensures Valid()
      ensures State() == old(State()).(showResult := true)
      ensures report == State().Scores()
      ensures report.WithinMaxima() && 0 <= report.Total() <= MaxTotal
    {
      showResult := true;
      report := State().Scores();
      ScoresBounded(State());
    }
  }
}
