/** The Mini-Cog wizard: three recall words, a clock whose two hands the subject
    drags to 11:10, a recall step, and a five-point result with the impairment
    cut-off (a total of 3 or less). The wizard is one object whose fields are the
    screen's state; each button is a method. Angles are whole degrees. */
module MiniCog {
  import opened Optional
  import opened JsText
  import opened WordRecall

  /** The three words shown at step 1 and asked for at step 3. */
  const CorrectWords: seq<string> := ["หลานสาว", "สวรรค์", "ภูเขา"]
  /** 11:10 on the dial: the hour hand at 11 is 330 degrees, the minute hand at 10 minutes 60. */
  const TargetHour: int := 330
  const TargetMinute: int := 60
  /** How far, in degrees, each hand may be from its target. */
  const Tolerance: int := 25
  /** A total at or below this is classed as cognitive impairment. */
  const ImpairedAtMost: int := 3

  // ---------------------------------------------------------------- angles

  /** JavaScript's `a % 360`: the remainder of division truncated toward zero, so
      it has the sign of `a` (Dafny's own `%` never goes negative). */
  function JsRem360(a: int): (r: int)
    ensures -360 < r < 360
    ensures a >= 0 ==> r >= 0
    ensures a <= 0 ==> r <= 0
    ensures r % 360 == a % 360
  {
    if a >= 0 then a % 360 else -((-a) % 360)
  }

  /** `normalizeAngle`: `((angle % 360) + 360) % 360`. Always in [0, 360) and in the
      same turn position as the input: it is the Euclidean remainder by 360. */
  function NormalizeAngle(angle: int): (r: int)
    ensures 0 <= r < 360
    ensures r == angle % 360
  {
    JsRem360(JsRem360(angle) + 360)
  }

  /** Normalizing an angle that is already normalized changes nothing. */
  lemma NormalizeIdempotent(angle: int)
    ensures NormalizeAngle(NormalizeAngle(angle)) == NormalizeAngle(angle)
  {
  }

  function Abs(x: int): int {
    if x < 0 then -x else x
  }

  /** `anglesClose`: the two normalized angles differ by at most `tol`, or by at
      least `360 - tol` (the short way round across 0/360). */
  predicate AnglesClose(a: int, b: int, tol: int) {
    var diff := Abs(NormalizeAngle(a) - NormalizeAngle(b));
    diff <= tol || diff >= 360 - tol
  }

  /** The circular distance between two angles: how far apart they are on the dial
      going the short way round, a value in [0, 180]. */
  function CircularDistance(a: int, b: int): (r: int)
    ensures 0 <= r <= 180
  {
    var d := (a - b) % 360;
    if d <= 180 then d else 360 - d
  }

  /** The distance does not depend on the order of the two angles. */
  lemma CircularDistanceSymmetric(a: int, b: int)
    ensures CircularDistance(a, b) == CircularDistance(b, a)
  {
    var d := (a - b) % 360;
    var e := (b - a) % 360;
    assert d == 0 <==> e == 0;
    assert d != 0 ==> e == 360 - d;
  }

  /** The Euclidean remainder by 360 is the one value in [0, 360) that differs from
      `x` by whole turns. */
  lemma TurnRemainder(x: int, k: int, r: int)
    requires 0 <= r < 360 && x == 360 * k + r
    ensures x % 360 == r
  {
  }

  /** `anglesClose` is exactly "circular distance at most the tolerance", for every
      tolerance, including wrap-around near 0/360. */
  lemma AnglesCloseIsDistance(a: int, b: int, tol: int)
    ensures AnglesClose(a, b, tol) <==> CircularDistance(a, b) <= tol
  {
    var na, nb := NormalizeAngle(a), NormalizeAngle(b);
    var k := a / 360 - b / 360;
    assert a - b == 360 * k + (na - nb);
    if na >= nb {
      TurnRemainder(a - b, k, na - nb);
    } else {
      TurnRemainder(a - b, k - 1, 360 - (nb - na));
    }
  }

  /** The two hands can be given in either order. */
  lemma AnglesCloseSymmetric(a: int, b: int, tol: int)
    ensures AnglesClose(a, b, tol) <==> AnglesClose(b, a, tol)
  {
    AnglesCloseIsDistance(a, b, tol);
    AnglesCloseIsDistance(b, a, tol);
    CircularDistanceSymmetric(a, b);
  }

  /** Angles a whole number of turns apart are close under any tolerance that is
      not negative. */
  lemma AnglesCloseWhenCongruent(a: int, b: int, tol: int)
    requires a % 360 == b % 360 && tol >= 0
    ensures AnglesClose(a, b, tol)
  {
  }

  /** `evaluateClock`'s score: 2 when both hands are within tolerance of 11:10, else 0. */
  function ClockScore(hourAngle: int, minAngle: int): (r: int)
    ensures r == 0 || r == 2
  {
    if AnglesClose(hourAngle, TargetHour, Tolerance) && AnglesClose(minAngle, TargetMinute, Tolerance)
    then 2 else 0
  }

  /** Full clock marks exactly when each hand is at most 25 degrees, the short way
      round, from its target. */
  lemma ClockScoreByDistance(hourAngle: int, minAngle: int)
    ensures ClockScore(hourAngle, minAngle) == 2 <==>
              CircularDistance(hourAngle, TargetHour) <= Tolerance &&
              CircularDistance(minAngle, TargetMinute) <= Tolerance
  {
    AnglesCloseIsDistance(hourAngle, TargetHour, Tolerance);
    AnglesCloseIsDistance(minAngle, TargetMinute, Tolerance);
  }

  /** 11:10 exactly scores 2 and the starting position (both hands at 12) scores 0;
      hands 20 degrees off still score 2, angles a whole turn away from 11:10 are
      normalized first, and a minute hand 30 degrees off scores 0. */
  lemma ClockScoreExamples()
    ensures ClockScore(330, 60) == 2
    ensures ClockScore(0, 0) == 0
    ensures ClockScore(350, 40) == 2
    ensures ClockScore(-30, 420) == 2
    ensures ClockScore(330, 90) == 0
  {
    ClockScoreByDistance(330, 60);
    ClockScoreByDistance(0, 0);
    ClockScoreByDistance(350, 40);
    ClockScoreByDistance(-30, 420);
    ClockScoreByDistance(330, 90);
  }

  /** With these targets and this tolerance the wrap-around branch of `anglesClose`
      never decides the score: full marks exactly when the normalized hour hand is
      in [305, 355] and the normalized minute hand in [35, 85]. */
  lemma ClockScoreWindows(hourAngle: int, minAngle: int)
    ensures ClockScore(hourAngle, minAngle) == 2 <==>
              305 <= NormalizeAngle(hourAngle) <= 355 && 35 <= NormalizeAngle(minAngle) <= 85
  {
    HandWindow(hourAngle, TargetHour);
    HandWindow(minAngle, TargetMinute);
  }

  /** For a target more than the tolerance away from 0/360, a hand is close exactly
      when its normalized angle lies within the tolerance of the target. */
  lemma HandWindow(angle: int, target: int)
    requires Tolerance < target < 360 - Tolerance
    ensures AnglesClose(angle, target, Tolerance) <==>
              target - Tolerance <= NormalizeAngle(angle) <= target + Tolerance
  {
    assert NormalizeAngle(target) == target;
  }

  // ---------------------------------------------------------------- result

  /** What the result screen shows. */
  datatype Assessment = Assessment(clockScore: int, recallScore: int, total: int, impaired: bool)

  /** `checkRecallAnswers`: the recall count, the total with an unset clock score
      counted as 0, and the impairment flag. */
  function Assess(clockScore: Option<int>, words: seq<string>): (r: Assessment)
    ensures r.clockScore == OrZero(clockScore)
    ensures 0 <= r.recallScore <= |words|
    ensures r.total == r.clockScore + r.recallScore
    ensures r.impaired <==> r.total <= ImpairedAtMost
  {
    var correct := CountRecalled(words, CorrectWords);
    var total := OrZero(clockScore) + correct;
    Assessment(OrZero(clockScore), correct, total, total <= ImpairedAtMost)
  }

  /** With a clock score the wizard can produce and three recall boxes, the total
      is in [0, 5]; it is 5 exactly when the clock scored 2 and every box holds one
      of the three words. */
  lemma AssessBounds(clockScore: Option<int>, words: seq<string>)
    requires clockScore == Some(0) || clockScore == Some(2)
    requires |words| == 3
    ensures 0 <= Assess(clockScore, words).total <= 5
    ensures Assess(clockScore, words).total == 5 <==>
              clockScore == Some(2) && forall i :: 0 <= i < 3 ==> Trim(words[i]) in CorrectWords
  {
    CountRecalledFull(words, CorrectWords);
  }

  /** The cut-off: a failed clock with one word recalled (1) or all three (3) is
      impaired; a correct clock with two words (4) is not. */
  lemma AssessExamples()
    ensures Assess(Some(0), ["หลานสาว", "", ""]).total == 1
    ensures Assess(Some(0), ["หลานสาว", "", ""]).impaired
    ensures Assess(Some(0), ["หลานสาว", "สวรรค์", "ภูเขา"]).total == 3
    ensures Assess(Some(0), ["หลานสาว", "สวรรค์", "ภูเขา"]).impaired
    ensures Assess(Some(2), ["หลานสาว", "", "ภูเขา"]).total == 4
    ensures !Assess(Some(2), ["หลานสาว", "", "ภูเขา"]).impaired
  {
    var one := ["หลานสาว", "", ""];
    var all := ["หลานสาว", "สวรรค์", "ภูเขา"];
    var two := ["หลานสาว", "", "ภูเขา"];
    TrimsCorrectWords();
    assert Trim("") == "" && "" !in CorrectWords;
    CountRecalledThree(one, CorrectWords);
    CountRecalledThree(all, CorrectWords);
    CountRecalledThree(two, CorrectWords);
  }

  /** One correct word typed into all three boxes, with a correct clock, scores the
      full 5 and reads as not impaired, though a single word was recalled. */
  lemma RepeatedWordPasses()
    ensures Assess(Some(2), ["ภูเขา", "ภูเขา", "ภูเขา"]).total == 5
    ensures !Assess(Some(2), ["ภูเขา", "ภูเขา", "ภูเขา"]).impaired
    ensures DistinctRecalled(["ภูเขา", "ภูเขา", "ภูเขา"], CorrectWords) == 1
  {
    var mountain := "ภูเขา";
    var words := [mountain, mountain, mountain];
    assert Trim(mountain) == mountain && mountain == CorrectWords[2] by {
      TrimsCorrectWords();
    }
    assert CountRecalled(words, CorrectWords) == 3 by {
      CountRecalledThree(words, CorrectWords);
    }
    assert Assess(Some(2), words) == Assessment(2, 3, 5, false);
    assert DistinctRecalled(words, CorrectWords) == 1 by {
      DistinctRecalledThree(words, CorrectWords);
      RecalledThree(words, CorrectWords[0]);
      RecalledThree(words, CorrectWords[1]);
      RecalledThree(words, CorrectWords[2]);
      assert |CorrectWords[0]| == 7 && |CorrectWords[1]| == 6 && |mountain| == 5;
    }
  }

  /** The three correct words, typed without padding, trim to themselves. */
  lemma TrimsCorrectWords()
    ensures forall i :: 0 <= i < |CorrectWords| ==> Trim(CorrectWords[i]) == CorrectWords[i]
  {
    forall i | 0 <= i < |CorrectWords|
      ensures Trim(CorrectWords[i]) == CorrectWords[i]
    {
      var w := CorrectWords[i];
      TrimPadded([], w, []);
      assert [] + w + [] == w;
    }
  }

  // ---------------------------------------------------------------- the wizard

  /** The hand being dragged. */
  datatype Hand = HourHand | MinuteHand

  /** Everything on the wizard at one moment. */
  datatype Session = Session(step: int, clockScore: Option<int>, userWords: seq<string>,
                             result: Option<Assessment>, hourAngle: int, minAngle: int)
  {
    /** Steps 1 to 4 in order: no clock score before the clock step is left, 0 or 2
        after it; a result exactly on step 4, and then the one the answers give;
        hands on the dial. */
    predicate WellFormed() {
      1 <= step <= 4 && |userWords| == 3 &&
      (step <= 2 ==> clockScore == None) &&
      (step >= 3 ==> clockScore == Some(0) || clockScore == Some(2)) &&
      (result.Some? <==> step == 4) &&
      (step == 4 ==> result == Some(Assess(clockScore, userWords))) &&
      0 <= hourAngle < 360 && 0 <= minAngle < 360
    }
  }

  const InitialSession: Session := Session(1, None, ["", "", ""], None, 0, 0)

  /** The wizard opens on step 1 with nothing answered and both hands at 12. */
  lemma InitialSessionWellFormed()
    ensures InitialSession.WellFormed()
    ensures ClockScore(InitialSession.hourAngle, InitialSession.minAngle) == 0
  {
    ClockScoreExamples();
  }

  class Quiz {
    var step: int
    var clockScore: Option<int>
    var userWords: seq<string>
    var result: Option<Assessment>
    var hourAngle: int
    var minAngle: int

    function State(): Session
      reads this
    {
      Session(step, clockScore, userWords, result, hourAngle, minAngle)
    }

    predicate Valid()
      reads this
    {
      State().WellFormed()
    }

    constructor ()
      ensures State() == InitialSession && Valid()
    {
      step := 1;
      clockScore := None;
      userWords := ["", "", ""];
      result := None;
      hourAngle := 0;
      minAngle := 0;
      new;
      InitialSessionWellFormed();
    }

    /** Step 1's button: the words have been memorised; on to the clock. */
    method ConfirmMemorized()
      requires Valid() && step == 1
      modifies this
      ensures Valid()
      ensures State() == old(State()).(step := 2)
    {
      step := 2;
    }

    /** A drag on the dial moves one hand to the pointer's angle, normalized;
        the pointer geometry that produces `angle` is outside this model. */
    method DragHand(hand: Hand, angle: int)
      requires Valid() && step == 2
      modifies this
      ensures Valid()
      ensures hand == HourHand ==> State() == old(State()).(hourAngle := NormalizeAngle(angle))
      ensures hand == MinuteHand ==> State() == old(State()).(minAngle := NormalizeAngle(angle))
    {
      if hand == HourHand {
        hourAngle := NormalizeAngle(angle);
      } else {
        minAngle := NormalizeAngle(angle);
      }
    }

    /** Automatic grading: 2 when both hands are near 11:10, else 0; on to recall. */
    method EvaluateClock()
      requires Valid() && step == 2
      modifies this
      ensures Valid()
      ensures State() == old(State()).(step := 3, clockScore := Some(ClockScore(hourAngle, minAngle)))
      ensures clockScore == Some(2) <==>
                CircularDistance(hourAngle, TargetHour) <= Tolerance &&
                CircularDistance(minAngle, TargetMinute) <= Tolerance
    {
      var hourCorrect := AnglesClose(hourAngle, TargetHour, Tolerance);
      var minCorrect := AnglesClose(minAngle, TargetMinute, Tolerance);
      var score := if hourCorrect && minCorrect then 2 else 0;
      ClockScoreByDistance(hourAngle, minAngle);
      clockScore := Some(score);
      step := 3;
    }

    /** The examiner's own verdict on the drawing: 2 if correct, 0 if not; on to recall. */
    method RateClock(correct: bool)
      requires Valid() && step == 2
      modifies this
      ensures Valid()
      ensures State() == old(State()).(step := 3, clockScore := Some(if correct then 2 else 0))
    {
      clockScore := Some(if correct then 2 else 0);
      step := 3;
    }

    /** Types into recall box i; the other boxes keep their text. */
    method EditWord(i: int, text: string)
      requires Valid() && step == 3
      requires 0 <= i < |userWords|
      modifies this
      ensures Valid()
      ensures State() == old(State()).(userWords := old(userWords)[i := text])
      ensures |userWords| == 3 && userWords[i] == text
      ensures forall k :: 0 <= k < 3 && k != i ==> userWords[k] == old(userWords[k])
    {
      userWords := userWords[i := text];
    }

    /** Scores the recall boxes, totals with the clock, and shows the result. */
    method CheckRecallAnswers() returns (shown: Assessment)
      requires Valid() && step == 3
      modifies this
      ensures Valid()
      ensures State() == old(State()).(step := 4, result := Some(Assess(clockScore, userWords)))
      ensures shown == Assess(clockScore, userWords)
      ensures 0 <= shown.recallScore <= 3 && 0 <= shown.total <= 5
      ensures shown.impaired <==> shown.total <= ImpairedAtMost
    {
      shown := Assess(clockScore, userWords);
      AssessBounds(clockScore, userWords);
      result := Some(shown);
      step := 4;
    }

    /** The restart button on the result screen (when no back handler is given):
        every field back to its starting value. */
    method Restart()
      requires Valid() && step == 4
      modifies this
      ensures Valid()
      ensures State() == InitialSession
    {
      step := 1;
      userWords := ["", "", ""];
      clockScore := None;
      result := None;
      hourAngle := 0;
      minAngle := 0;
      InitialSessionWellFormed();
    }
  }
}
