/** The recall rule both quizzes share: a typed answer scores when its trimmed
    text is exactly one of the target words. Answer slots are counted, not
    distinct words, so a correct word typed twice scores twice. */
module WordRecall {
  import opened JsText

  /** How many answer slots, once trimmed, are one of the target words. */
  function CountRecalled(words: seq<string>, targets: seq<string>): (r: nat)
    ensures r <= |words|
  {
    if words == [] then 0
    else
      CountRecalled(words[..|words| - 1], targets)
        + (if Trim(words[|words| - 1]) in targets then 1 else 0)
  }

  /** The count is additive over any split of the answer slots. */
  lemma {:induction false} CountRecalledAppend(a: seq<string>, b: seq<string>, targets: seq<string>)
    ensures CountRecalled(a + b, targets) == CountRecalled(a, targets) + CountRecalled(b, targets)
  {
    if b == [] {
      assert a + b == a;
    } else {
      var n := |b|;
      assert (a + b)[..|a + b| - 1] == a + b[..n - 1];
      assert (a + b)[|a + b| - 1] == b[n - 1];
      CountRecalledAppend(a, b[..n - 1], targets);
    }
  }

  /** The count does not depend on the order in which two groups of answers come. */
  lemma CountRecalledSwapGroups(a: seq<string>, b: seq<string>, targets: seq<string>)
    ensures CountRecalled(a + b, targets) == CountRecalled(b + a, targets)
  {
    CountRecalledAppend(a, b, targets);
    CountRecalledAppend(b, a, targets);
  }

  /** Full marks exactly when every slot holds a target word. */
  lemma {:induction false} CountRecalledFull(words: seq<string>, targets: seq<string>)
    ensures CountRecalled(words, targets) == |words|
        <==> forall i :: 0 <= i < |words| ==> Trim(words[i]) in targets
  {
    if words != [] {
      var n := |words|;
      var init := words[..n - 1];
      CountRecalledFull(init, targets);
      assert CountRecalled(words, targets) == n
         <==> CountRecalled(init, targets) == n - 1 && Trim(words[n - 1]) in targets;
      assert (forall i :: 0 <= i < n - 1 ==> Trim(init[i]) in targets)
         <==> (forall i :: 0 <= i < n - 1 ==> Trim(words[i]) in targets);
    }
  }

  /** No marks exactly when no slot holds a target word. */
  lemma {:induction false} CountRecalledNone(words: seq<string>, targets: seq<string>)
    ensures CountRecalled(words, targets) == 0
        <==> forall i :: 0 <= i < |words| ==> Trim(words[i]) !in targets
  {
    if words != [] {
      var n := |words|;
      var init := words[..n - 1];
      CountRecalledNone(init, targets);
      assert CountRecalled(words, targets) == 0
         <==> CountRecalled(init, targets) == 0 && Trim(words[n - 1]) !in targets;
      assert (forall i :: 0 <= i < n ==> Trim(words[i]) !in targets)
         <==> (forall i :: 0 <= i < n - 1 ==> Trim(init[i]) !in targets) && Trim(words[n - 1]) !in targets;
    }
  }

  /** Three answer boxes, counted box by box. */
  lemma CountRecalledThree(words: seq<string>, targets: seq<string>)
    requires |words| == 3
    ensures CountRecalled(words, targets)
         == (if Trim(words[0]) in targets then 1 else 0)
          + (if Trim(words[1]) in targets then 1 else 0)
          + (if Trim(words[2]) in targets then 1 else 0)
  {
    var one, two := words[..1], words[..2];
    assert one[..0] == [] && one[0] == words[0];
    assert CountRecalled(one, targets) == if Trim(words[0]) in targets then 1 else 0;
    assert two[..1] == one && two[1] == words[1];
  }

  /** Some answer box, once trimmed, is the word `t`: the `some` test behind one
      tick of the TMSE recall feedback. */
  predicate Recalled(words: seq<string>, t: string) {
    exists i :: 0 <= i < |words| && Trim(words[i]) == t
  }

  /** How many target words appear in at least one box: the number of ticks the TMSE
      recall feedback shows, and a count in which a repeated word scores once. */
  function DistinctRecalled(words: seq<string>, targets: seq<string>): (r: nat)
    ensures r <= |targets|
  {
    if targets == [] then 0
    else
      DistinctRecalled(words, targets[..|targets| - 1])
        + (if Recalled(words, targets[|targets| - 1]) then 1 else 0)
  }

  /** Every target is ticked exactly when the distinct count is full. */
  lemma {:induction false} DistinctRecalledFull(words: seq<string>, targets: seq<string>)
    ensures DistinctRecalled(words, targets) == |targets|
        <==> forall j :: 0 <= j < |targets| ==> Recalled(words, targets[j])
  {
    if targets != [] {
      var n := |targets|;
      var init := targets[..n - 1];
      DistinctRecalledFull(words, init);
      assert DistinctRecalled(words, targets) == n
         <==> DistinctRecalled(words, init) == n - 1 && Recalled(words, targets[n - 1]);
      assert (forall j :: 0 <= j < n - 1 ==> Recalled(words, init[j]))
         <==> (forall j :: 0 <= j < n - 1 ==> Recalled(words, targets[j]));
    }
  }

  /** Three target words, ticked one by one. */
  lemma DistinctRecalledThree(words: seq<string>, targets: seq<string>)
    requires |targets| == 3
    ensures DistinctRecalled(words, targets)
         == (if Recalled(words, targets[0]) then 1 else 0)
          + (if Recalled(words, targets[1]) then 1 else 0)
          + (if Recalled(words, targets[2]) then 1 else 0)
  {
    var one, two := targets[..1], targets[..2];
    assert one[..0] == [] && one[0] == targets[0];
    assert DistinctRecalled(words, one) == if Recalled(words, targets[0]) then 1 else 0;
    assert two[..1] == one && two[1] == targets[1];
  }

  /** Both counts over three boxes and three targets, written out in terms of which
      trimmed answer equals which target. */
  lemma CountsThree(words: seq<string>, targets: seq<string>)
    requires |words| == 3 && |targets| == 3
    ensures var a0, a1, a2 := Trim(words[0]), Trim(words[1]), Trim(words[2]);
            var t0, t1, t2 := targets[0], targets[1], targets[2];
            CountRecalled(words, targets)
              == (if a0 == t0 || a0 == t1 || a0 == t2 then 1 else 0)
               + (if a1 == t0 || a1 == t1 || a1 == t2 then 1 else 0)
               + (if a2 == t0 || a2 == t1 || a2 == t2 then 1 else 0) &&
            DistinctRecalled(words, targets)
              == (if t0 == a0 || t0 == a1 || t0 == a2 then 1 else 0)
               + (if t1 == a0 || t1 == a1 || t1 == a2 then 1 else 0)
               + (if t2 == a0 || t2 == a1 || t2 == a2 then 1 else 0)
  {
    var a0, a1, a2 := Trim(words[0]), Trim(words[1]), Trim(words[2]);
    var t0, t1, t2 := targets[0], targets[1], targets[2];
    var c0, c1, c2 := a0 in targets, a1 in targets, a2 in targets;
    var r0, r1, r2 := Recalled(words, t0), Recalled(words, t1), Recalled(words, t2);
    assert CountRecalled(words, targets)
        == (if c0 then 1 else 0) + (if c1 then 1 else 0) + (if c2 then 1 else 0) by {
      CountRecalledThree(words, targets);
    }
    assert DistinctRecalled(words, targets)
        == (if r0 then 1 else 0) + (if r1 then 1 else 0) + (if r2 then 1 else 0) by {
      DistinctRecalledThree(words, targets);
    }
    assert (c0 <==> a0 == t0 || a0 == t1 || a0 == t2) &&
           (c1 <==> a1 == t0 || a1 == t1 || a1 == t2) &&
           (c2 <==> a2 == t0 || a2 == t1 || a2 == t2) by {
      assert targets == [t0, t1, t2];
    }
    assert (r0 <==> t0 == a0 || t0 == a1 || t0 == a2) &&
           (r1 <==> t1 == a0 || t1 == a1 || t1 == a2) &&
           (r2 <==> t2 == a0 || t2 == a1 || t2 == a2) by {
      RecalledThree(words, t0);
      RecalledThree(words, t1);
      RecalledThree(words, t2);
    }
  }

  /** With three boxes, a word is recalled exactly when one of the three boxes
      trims to it. */
  lemma RecalledThree(words: seq<string>, t: string)
    requires |words| == 3
    ensures Recalled(words, t) <==> t == Trim(words[0]) || t == Trim(words[1]) || t == Trim(words[2])
  {
    if t == Trim(words[0]) || t == Trim(words[1]) || t == Trim(words[2]) {
      var i := if t == Trim(words[0]) then 0 else if t == Trim(words[1]) then 1 else 2;
      assert Trim(words[i]) == t;
    }
  }

  /** With three different target words, the box count (the score) is never below
      the distinct-word count (the ticks): every ticked word fills at least one box. */
  lemma CountNeverBelowDistinct(words: seq<string>, targets: seq<string>)
    requires |words| == 3 && |targets| == 3
    requires targets[0] != targets[1] && targets[0] != targets[2] && targets[1] != targets[2]
    ensures CountRecalled(words, targets) >= DistinctRecalled(words, targets)
  {
    CountsThree(words, targets);
    MatchingAtLeast(Trim(words[0]), Trim(words[1]), Trim(words[2]),
                    targets[0], targets[1], targets[2]);
  }

  /** With three different target words, the two counts agree unless one target
      word fills two boxes: blank or wrong answers may repeat freely. */
  lemma CountsAgreeWithoutRepeats(words: seq<string>, targets: seq<string>)
    requires |words| == 3 && |targets| == 3
    requires Trim(words[0]) == Trim(words[1]) ==> Trim(words[0]) !in targets
    requires Trim(words[0]) == Trim(words[2]) ==> Trim(words[0]) !in targets
    requires Trim(words[1]) == Trim(words[2]) ==> Trim(words[1]) !in targets
    requires targets[0] != targets[1] && targets[0] != targets[2] && targets[1] != targets[2]
    ensures CountRecalled(words, targets) == DistinctRecalled(words, targets)
  {
    var a0, a1, a2 := Trim(words[0]), Trim(words[1]), Trim(words[2]);
    var t0, t1, t2 := targets[0], targets[1], targets[2];
    assert forall x :: x in targets <==> x == t0 || x == t1 || x == t2 by {
      assert targets == [t0, t1, t2];
    }
    CountsThree(words, targets);
    MatchingCounts(a0, a1, a2, t0, t1, t2);
  }

  /** Three different targets: each target equal to some answer takes up an answer
      of its own, so answers hitting a target are at least as many as targets hit. */
  lemma MatchingAtLeast<T>(a0: T, a1: T, a2: T, t0: T, t1: T, t2: T)
    requires t0 != t1 && t0 != t2 && t1 != t2
    ensures (if a0 == t0 || a0 == t1 || a0 == t2 then 1 else 0)
          + (if a1 == t0 || a1 == t1 || a1 == t2 then 1 else 0)
          + (if a2 == t0 || a2 == t1 || a2 == t2 then 1 else 0)
         >= (if t0 == a0 || t0 == a1 || t0 == a2 then 1 else 0)
          + (if t1 == a0 || t1 == a1 || t1 == a2 then 1 else 0)
          + (if t2 == a0 || t2 == a1 || t2 == a2 then 1 else 0)
  {
  }

  /** Three different targets, and no target equal to two answers: equal pairs form
      a matching, so as many answers hit a target as targets are hit. */
  lemma MatchingCounts<T>(a0: T, a1: T, a2: T, t0: T, t1: T, t2: T)
    requires a0 == a1 ==> a0 != t0 && a0 != t1 && a0 != t2
    requires a0 == a2 ==> a0 != t0 && a0 != t1 && a0 != t2
    requires a1 == a2 ==> a1 != t0 && a1 != t1 && a1 != t2
    requires t0 != t1 && t0 != t2 && t1 != t2
    ensures (if a0 == t0 || a0 == t1 || a0 == t2 then 1 else 0)
          + (if a1 == t0 || a1 == t1 || a1 == t2 then 1 else 0)
          + (if a2 == t0 || a2 == t1 || a2 == t2 then 1 else 0)
         == (if t0 == a0 || t0 == a1 || t0 == a2 then 1 else 0)
          + (if t1 == a0 || t1 == a1 || t1 == a2 then 1 else 0)
          + (if t2 == a0 || t2 == a1 || t2 == a2 then 1 else 0)
  {
  }
}
