/**
  Why the content normalizer refuses a payload, in terms of what the author wrote, and the
  order in which it keeps marks and answers (backend/internal/resources/content.go).
*/
module ResourceRefusals {
  import opened Options
  import opened ResourceContent
  import Text

  // --- order -----------------------------------------------------------------------------------

  /** Reading on only appends: marks stand in the order of their first occurrences. */
  lemma {:induction false} DedupeKeepsOrder(s: seq<string>, more: seq<string>)
    ensures Dedupe(s) <= Dedupe(s + more)
  {
    hide Dedupe;
    if more == [] {
      assert s + more == s;
    } else {
      var n := |more| - 1;
      DedupeKeepsOrder(s, more[..n]);
      assert s + more == s + more[..n] + [more[n]];
      DedupeOneMore(s + more[..n], more[n]);
    }
  }

  lemma DedupeOneMore(s: seq<string>, x: string)
    ensures Dedupe(s + [x]) == Dedupe(s) + if x != "" && x !in s then [x] else []
  {
    assert (s + [x])[..|s|] == s;
  }

  /** Answers are read one by one, each blank one skipped, each other one trimmed, in order. */
  lemma {:induction false} AnswersInOrder(s: seq<string>, more: seq<string>)
    ensures Answers(s + more) == Answers(s) + Answers(more)
  {
    hide Text.TrimSpace, Blank, Answers;
    if more == [] {
      assert s + more == s;
      assert Answers(s) + Answers([]) == Answers(s) by { NoAnswers(); }
    } else {
      var n := |more| - 1;
      AnswersInOrder(s, more[..n]);
      assert s + more == s + more[..n] + [more[n]] && more == more[..n] + [more[n]];
      AnswersOneMore(s + more[..n], more[n]);
      AnswersOneMore(more[..n], more[n]);
    }
  }

  lemma NoAnswers()
    ensures Answers([]) == []
  {
  }

  lemma AnswersOneMore(s: seq<string>, x: string)
    ensures Answers(s + [x]) == Answers(s) + if Blank(x) then [] else [Text.TrimSpace(x)]
  {
    hide Text.TrimSpace;
    assert (s + [x])[..|s|] == s;
  }

  // --- one question ------------------------------------------------------------------------------

  /** The marks the author made, once each. */
  function MarksMade(q: Question): set<string> {
    set m | m in q.correct && m != ""
  }

  lemma {:induction false} DistinctCount(s: seq<string>)
    requires Distinct(s)
    ensures |set m | m in s| == |s|
  {
    if s != [] {
      var n := |s| - 1;
      DistinctCount(s[..n]);
      assert s == s[..n] + [s[n]];
      assert (set m | m in s) == (set m | m in s[..n]) + {s[n]};
    }
  }

  lemma MarksCounted(q: Question)
    ensures |Dedupe(q.correct)| == |MarksMade(q)|
  {
    hide Dedupe;
    DistinctCount(Dedupe(q.correct));
    assert MarksMade(q) == set m | m in Dedupe(q.correct);
  }

  /** What is wrong with a choice question that has a prompt. */
  ghost function ChoiceFault(q: Question): Option<QuestionError> {
    if |q.choices| < 2 then Some(TooFewChoices)
    else if exists i :: 0 <= i < |q.choices| && Blank(q.choices[i].text) then Some(EmptyChoice)
    else if MarksMade(q) == {} then Some(NothingMarked)
    else if q.kind == "single" && |MarksMade(q)| > 1 then Some(NotSingle(|MarksMade(q)|))
    else if exists m :: m in q.correct && m != "" && !GivenId(q, m) then Some(StrayMark)
    else None
  }

  /** What is wrong with a question, if anything: the first of these. */
  ghost function QuestionFault(q: Question): Option<QuestionError> {
    if Blank(q.prompt) then Some(NoQuestionPrompt)
    else
      match q.kind
      case "single" => ChoiceFault(q)
      case "multi" => ChoiceFault(q)
      case "text" => if forall a :: a in q.correct ==> Blank(a) then Some(NoAnswer) else None
      case _ => Some(UnknownKind)
  }

  /** A question is refused with its first fault, whatever ids the supply gives. */
  lemma QuestionRefused(q: Question, supply: Supply, used: nat)
    requires forall k :: Unmarked(supply, k, q)
    ensures var r := CleanQuestion(q, supply, used);
            if r.Ok? then QuestionFault(q) == None else QuestionFault(q) == Some(r.error)
  {
    hide Text.TrimSpace, CleanChoices, CleanMarks, Answers, Unmarked, ChoiceFault;
    if q.kind == "text" {
      AnswersAreNonBlank(q.correct);
    } else {
      ChoiceRefused(q, supply, if q.id == "" then used + 1 else used);
    }
  }

  lemma ChoiceRefused(q: Question, supply: Supply, used: nat)
    requires forall k :: Unmarked(supply, k, q)
    ensures |q.choices| < 2 ==> ChoiceFault(q) == Some(TooFewChoices)
    ensures |q.choices| >= 2 && CleanChoices(q.choices, supply, used) == None ==> ChoiceFault(q) == Some(EmptyChoice)
    ensures |q.choices| >= 2 && CleanChoices(q.choices, supply, used).Some? ==>
              forall named: Question :: named.kind == q.kind && named.choices == CleanChoices(q.choices, supply, used).value.0 ==>
                var r := CleanMarks(named, Dedupe(q.correct));
                if r.Ok? then ChoiceFault(q) == None else ChoiceFault(q) == Some(r.error)
  {
    hide Text.TrimSpace, CleanChoices, Dedupe, TidyChoice, Unmarked, GivenId, Ids;
    ChoicesAreTidied(q.choices, supply, used);
    if CleanChoices(q.choices, supply, used).Some? {
      var out := CleanChoices(q.choices, supply, used).value.0;
      MarksCounted(q);
      forall m | m in q.correct && m != "" ensures m in Ids(out) <==> GivenId(q, m) {
        MarksNameGivenChoices(q, out, supply, m);
      }
    }
  }

  // --- the payload -----------------------------------------------------------------------------------

  /** The number and fault of the first faulty question. */
  ghost function FirstFault(qs: seq<Question>): Option<ContentError> {
    if qs == [] then None
    else
      var earlier := FirstFault(qs[..|qs| - 1]);
      if earlier.Some? then earlier
      else
        match QuestionFault(qs[|qs| - 1])
        case None => None
        case Some(why) => Some(BadQuestion(|qs|, why))
  }

  /** The first faulty question is the one reported. */
  lemma {:induction false} FirstFaultIsFirst(qs: seq<Question>)
    ensures match FirstFault(qs)
            case None => forall i :: 0 <= i < |qs| ==> QuestionFault(qs[i]) == None
            case Some(e) =>
              e.BadQuestion? && 1 <= e.number <= |qs| && QuestionFault(qs[e.number - 1]) == Some(e.why)
              && forall i :: 0 <= i < e.number - 1 ==> QuestionFault(qs[i]) == None
  {
    hide QuestionFault;
    if qs != [] {
      FirstFaultIsFirst(qs[..|qs| - 1]);
    }
  }

  lemma {:induction false} QuestionsRefused(qs: seq<Question>, supply: Supply, used: nat)
    requires FreshFor(qs, supply)
    ensures var r := CleanQuestions(qs, supply, used);
            FirstFault(qs) == if r.Ok? then None else Some(r.error)
  {
    hide CleanQuestion, QuestionFault, Unmarked;
    if qs != [] {
      var n := |qs| - 1;
      forall k, i | 0 <= i < n ensures Unmarked(supply, k, qs[..n][i]) { assert qs[..n][i] == qs[i]; }
      QuestionsRefused(qs[..n], supply, used);
      var done := CleanQuestions(qs[..n], supply, used);
      if done.Ok? {
        assert forall k :: Unmarked(supply, k, qs[n]);
        QuestionRefused(qs[n], supply, done.value.1);
      }
    }
  }

  ghost function QuizFault(qs: seq<Question>): Option<ContentError> {
    if qs == [] then Some(NoQuestions) else FirstFault(qs)
  }

  /** What is wrong with a payload of this type, if anything: the first of these. */
  ghost function PayloadFault(t: ResourceType, c: Content): Option<ContentError> {
    match t
    case Material =>
      if Blank(c.url) then if c.fileAsset.None? then Some(NeedsFileOrLink) else None
      else
        var url := Text.TrimSpace(c.url);
        if "http://" <= url || "https://" <= url then None else Some(BadLink)
    case Article => if Blank(c.body) then Some(NoBody) else None
    case Writing => if Blank(c.prompt) then Some(NoPrompt) else if c.minWords < 0 then Some(NegativeWords) else None
    case Quiz => QuizFault(c.questions)
    case Listening => if c.audioAsset.None? then Some(NoAudio) else QuizFault(c.questions)
    case Reading => if Blank(c.passage) then Some(NoPassage) else QuizFault(c.questions)
    case Other(_) => Some(UnknownType)
  }

  /** A payload is refused exactly with its first fault, and accepted when it has none. */
  lemma RefusedWithFirstFault(t: ResourceType, c: Content, supply: Supply, used: nat)
    requires FreshFor(c.questions, supply)
    ensures var r := Clean(t, c, supply, used);
            PayloadFault(t, c) == if r.Ok? then None else Some(r.error)
  {
    hide Text.TrimSpace, CleanQuestions, FirstFault;
    QuestionsRefused(c.questions, supply, used);
  }
}
