/** The `ordered_list` scorer of the US-government knowledge task: the
    completion is split on commas, each piece and each target is normalised,
    and the two lists are compared either position by position or, when the
    sample asks for it, by membership. */
module UsGovernment {
  import opened Wrappers
  import opened Json
  import Decimal

  // ---------------------------------------------------------------------------
  // Splitting on commas
  // ---------------------------------------------------------------------------

  predicate CommaFree(s: string) {
    forall i | 0 <= i < |s| :: s[i] != ','
  }

  /** Python's `s.split(",")`: the pieces between commas, so always one more
      piece than there are commas, and `[""]` for the empty string. */
  function Split(s: string): (parts: seq<string>)
    ensures |parts| >= 1
    ensures forall i | 0 <= i < |parts| :: CommaFree(parts[i])
    decreases |s|
  {
    if |s| == 0 then [""]
    else
      var rest := Split(s[1..]);
      if s[0] == ',' then [""] + rest
      else [[s[0]] + rest[0]] + rest[1..]
  }

  /** `",".join(parts)`. */
  function Join(parts: seq<string>): string
    requires |parts| >= 1
    decreases |parts|
  {
    if |parts| == 1 then parts[0] else parts[0] + "," + Join(parts[1..])
  }

  /** The number of commas in `s`. */
  function Commas(s: string): nat
    decreases |s|
  {
    if |s| == 0 then 0 else (if s[0] == ',' then 1 else 0) + Commas(s[1..])
  }

  /** Splitting loses nothing: joining the pieces back with commas gives the
      original text. */
  lemma {:induction false} JoinSplit(s: string)
    ensures Join(Split(s)) == s
    decreases |s|
  {
    if |s| > 0 {
      JoinSplit(s[1..]);
      var rest := Split(s[1..]);
      if s[0] == ',' {
        assert s == [','] + s[1..];
      } else if |rest| == 1 {
        assert s == [s[0]] + s[1..];
      } else {
        assert Join(rest) == rest[0] + "," + Join(rest[1..]);
        assert s == [s[0]] + s[1..];
      }
    }
  }

  lemma SplitCons(c: char, s: string)
    requires c != ','
    ensures Split([c] + s) == [[c] + Split(s)[0]] + Split(s)[1..]
  {
    assert ([c] + s)[1..] == s;
  }

  lemma SplitComma(s: string)
    ensures Split([','] + s) == [""] + Split(s)
  {
    assert ([','] + s)[1..] == s;
  }

  /** Splitting a comma-free text prefixed to the rest of a text extends the
      first piece of the rest. */
  lemma {:induction false} SplitPrefix(p: string, s: string)
    requires CommaFree(p)
    ensures Split(p + s) == [p + Split(s)[0]] + Split(s)[1..]
    decreases |p|
  {
    if |p| == 0 {
      assert p + s == s;
      assert p + Split(s)[0] == Split(s)[0];
      assert Split(s) == [Split(s)[0]] + Split(s)[1..];
    } else {
      SplitPrefix(p[1..], s);
      assert p + s == [p[0]] + (p[1..] + s);
      SplitCons(p[0], p[1..] + s);
      assert [p[0]] + (p[1..] + Split(s)[0]) == p + Split(s)[0];
    }
  }

  /** Comma-free pieces survive a join and a split unchanged. */
  lemma {:induction false} SplitJoin(parts: seq<string>)
    requires |parts| >= 1
    requires forall i | 0 <= i < |parts| :: CommaFree(parts[i])
    ensures Split(Join(parts)) == parts
    decreases |parts|
  {
    if |parts| == 1 {
      SplitPrefix(parts[0], "");
      assert parts[0] + "" == parts[0];
    } else {
      SplitJoin(parts[1..]);
      var tail := "," + Join(parts[1..]);
      SplitComma(Join(parts[1..]));
      assert tail == [','] + Join(parts[1..]);
      SplitPrefix(parts[0], tail);
      assert parts[0] + tail == Join(parts);
      assert Split(tail)[0] == "" && Split(tail)[1..] == parts[1..];
      assert parts[0] + "" == parts[0];
      assert parts == [parts[0]] + parts[1..];
    }
  }

  /** One more piece than there are commas. */
  lemma {:induction false} SplitCount(s: string)
    ensures |Split(s)| == Commas(s) + 1
    decreases |s|
  {
    if |s| > 0 {
      SplitCount(s[1..]);
    }
  }

  // ---------------------------------------------------------------------------
  // Scoring
  // ---------------------------------------------------------------------------

  datatype Verdict = Correct | Incorrect

  datatype Score = Score(value: Verdict, answer: string, explanation: Option<string>)

  /** Each item normalised. */
  function Normalized(xs: seq<string>, normalize: string -> string): (ys: seq<string>)
    ensures |ys| == |xs|
    ensures forall i | 0 <= i < |xs| :: ys[i] == normalize(xs[i])
  {
    seq(|xs|, i requires 0 <= i < |xs| => normalize(xs[i]))
  }

  /** Line 93: the answers a completion gives. */
  function Answers(completion: string, normalize: string -> string): seq<string> {
    Normalized(Split(completion), normalize)
  }

  /** Line 103: `metadata.get("ignore_order", False)`, as a truth value. */
  predicate IgnoreOrder(metadata: seq<Field>) {
    Truthy(GetOr(metadata, "ignore_order", JBool(false)))
  }

  /** The first position where the lists differ, if any. */
  function FirstMismatch(answers: seq<string>, targets: seq<string>): (r: Option<nat>)
    requires |answers| == |targets|
    ensures r.None? <==> answers == targets
    ensures r.Some? ==> r.value < |targets| && answers[r.value] != targets[r.value]
    ensures r.Some? ==> forall j | 0 <= j < r.value :: answers[j] == targets[j]
    decreases |targets|
  {
    if |targets| == 0 then None
    else if answers[0] != targets[0] then Some(0)
    else match FirstMismatch(answers[1..], targets[1..])
      case None => None
      case Some(i) => Some(i + 1)
  }

  /** The position of the first target that is not among the answers, if
      any. */
  function FirstMissing(targets: seq<string>, answers: seq<string>): (r: Option<nat>)
    ensures r.None? <==> forall i | 0 <= i < |targets| :: targets[i] in answers
    ensures r.Some? ==> r.value < |targets| && targets[r.value] !in answers
    ensures r.Some? ==> forall j | 0 <= j < r.value :: targets[j] in answers
    decreases |targets|
  {
    if |targets| == 0 then None
    else if targets[0] !in answers then Some(0)
    else match FirstMissing(targets[1..], answers)
      case None => None
      case Some(i) => Some(i + 1)
  }

  function CountMessage(expected: nat, got: nat): string {
    "Expected " + Decimal.IntToString(expected) + " items but got " + Decimal.IntToString(got) + " items."
  }

  function MissingMessage(t: string): string {
    "Expected item '" + t + "' not found in answers."
  }

  function MismatchMessage(i: nat, expected: string, got: string): string {
    "Item " + Decimal.IntToString(i + 1) + " expected to be '" + expected + "' but got '" + got + "'."
  }

  /** The inner `score` of `ordered_list`. The verdict is CORRECT exactly
      when the counts agree and, in ordered mode, the lists are equal, or,
      with `ignore_order`, every target occurs among the answers. The
      reported answer is always the raw completion. */
  function OrderedList(
    completion: string, target: seq<string>, metadata: seq<Field>,
    normalize: string -> string): (sc: Score)
    ensures var answers := Answers(completion, normalize);
      var targets := Normalized(target, normalize);
      && sc.answer == completion
      && (sc.value == Correct <==>
            && |answers| == |targets|
            && if IgnoreOrder(metadata) then forall i | 0 <= i < |targets| :: targets[i] in answers
               else answers == targets)
      && (sc.value == Correct ==> sc.explanation.None?)
      && (|answers| != |targets| ==> sc.explanation == Some(CountMessage(|targets|, |answers|)))
      && (|answers| == |targets| && IgnoreOrder(metadata) && sc.value == Incorrect ==>
            exists i | 0 <= i < |targets| ::
              && targets[i] !in answers
              && (forall j | 0 <= j < i :: targets[j] in answers)
              && sc.explanation == Some(MissingMessage(targets[i])))
      && (|answers| == |targets| && !IgnoreOrder(metadata) && sc.value == Incorrect ==>
            exists i | 0 <= i < |targets| ::
              && answers[i] != targets[i]
              && (forall j | 0 <= j < i :: answers[j] == targets[j])
              && sc.explanation == Some(MismatchMessage(i, targets[i], answers[i])))
  {
    var answers := Answers(completion, normalize);
    var targets := Normalized(target, normalize);
    if |answers| != |targets| then
      Score(Incorrect, completion, Some(CountMessage(|targets|, |answers|)))
    else if IgnoreOrder(metadata) then
      match FirstMissing(targets, answers)
      case Some(i) => Score(Incorrect, completion, Some(MissingMessage(targets[i])))
      case None => Score(Correct, completion, None)
    else
      match FirstMismatch(answers, targets)
      case Some(i) => Score(Incorrect, completion, Some(MismatchMessage(i, targets[i], answers[i])))
      case None => Score(Correct, completion, None)
  }

  // ---------------------------------------------------------------------------
  // Properties of the scorer
  // ---------------------------------------------------------------------------

  /** Without an `ignore_order` entry the comparison is ordered. */
  lemma IgnoreOrderDefault(metadata: seq<Field>)
    requires "ignore_order" !in KeySet(metadata)
    ensures !IgnoreOrder(metadata)
  {
  }

  /** Ordered agreement is the stricter test: whatever passes in order also
      passes with `ignore_order`. */
  lemma OrderedImpliesUnordered(completion: string, target: seq<string>, normalize: string -> string)
    requires OrderedList(completion, target, [], normalize).value == Correct
    ensures OrderedList(completion, target, [Field("ignore_order", JBool(true))], normalize).value == Correct
  {
    var answers := Answers(completion, normalize);
    var targets := Normalized(target, normalize);
    assert !IgnoreOrder([]);
    assert IgnoreOrder([Field("ignore_order", JBool(true))]);
    forall i | 0 <= i < |targets| ensures targets[i] in answers {
      assert answers[i] == targets[i];
    }
  }

  /** Membership is not multiset equality: with `ignore_order` the targets
      `x, x` accept the completion `x,y`, whatever the second answer
      normalises to. */
  lemma DuplicateTargetsPass(normalize: string -> string)
    ensures OrderedList("x,y", ["x", "x"], [Field("ignore_order", JBool(true))], normalize).value == Correct
  {
    var completion := "x,y";
    assert "y" == ['y'] + "";
    SplitCons('y', "");
    assert Split("y") == ["y"];
    SplitComma("y");
    assert [','] + "y" == ",y";
    assert Split(",y") == ["", "y"];
    assert completion == ['x'] + ",y";
    SplitCons('x', ",y");
    assert ['x'] + "" == "x";
    assert Answers(completion, normalize)[0] == normalize("x");
    assert Split(completion) == ["x", "y"];
    assert IgnoreOrder([Field("ignore_order", JBool(true))]);
  }

  predicate Distinct(s: seq<string>) {
    forall i, j | 0 <= i < j < |s| :: s[i] != s[j]
  }

  /** In a list without repeats every item occurs at most once. */
  lemma {:induction false} DistinctOnce(s: seq<string>, x: string)
    requires Distinct(s)
    ensures multiset(s)[x] <= 1
    decreases |s|
  {
    if |s| > 0 {
      assert s == [s[0]] + s[1..];
      DistinctOnce(s[1..], x);
      if s[0] == x {
        assert x !in s[1..];
      }
    }
  }

  /** With targets that are all different, `ignore_order` scoring is exactly
      "the answers are a rearrangement of the targets". */
  lemma UnorderedIsPermutationForDistinctTargets(
    completion: string, target: seq<string>, metadata: seq<Field>, normalize: string -> string)
    requires IgnoreOrder(metadata)
    requires Distinct(Normalized(target, normalize))
    ensures OrderedList(completion, target, metadata, normalize).value == Correct <==>
      multiset(Answers(completion, normalize)) == multiset(Normalized(target, normalize))
  {
    var answers := Answers(completion, normalize);
    var targets := Normalized(target, normalize);
    if multiset(answers) == multiset(targets) {
      assert |answers| == |multiset(answers)| == |multiset(targets)| == |targets|;
      forall i | 0 <= i < |targets| ensures targets[i] in answers {
        assert targets[i] in multiset(targets);
      }
    }
    if OrderedList(completion, target, metadata, normalize).value == Correct {
      var mt, ma := multiset(targets), multiset(answers);
      forall x ensures mt[x] <= ma[x] {
        DistinctOnce(targets, x);
        if x in targets {
          var i :| 0 <= i < |targets| && targets[i] == x;
          assert x in answers;
        }
      }
      assert mt <= ma;
      assert |ma - mt| == |ma| - |mt| == 0;
      assert ma == mt + (ma - mt);
    }
  }
}
