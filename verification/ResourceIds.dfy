/**
  The ids the content normalizer fills in (backend/internal/resources/content.go): every
  blank question or choice id draws a value of its own, over the whole payload.
*/
module ResourceIds {
  import opened Options
  import opened ResourceContent
  import Text

  function ChoiceIds(cs: seq<Choice>): (ids: seq<string>)
    ensures |ids| == |cs| && forall i :: 0 <= i < |cs| ==> ids[i] == cs[i].id
  {
    if cs == [] then [] else ChoiceIds(cs[..|cs| - 1]) + [cs[|cs| - 1].id]
  }

  /** A question's own id and those of its choices; a text question's choices are dropped. */
  function LabelsOf(q: Question): seq<string> {
    [q.id] + if HasChoices(q.kind) then ChoiceIds(q.choices) else []
  }

  /** All ids of a payload, in the order the normalizer meets them. */
  function Labels(qs: seq<Question>): seq<string> {
    if qs == [] then [] else Labels(qs[..|qs| - 1]) + LabelsOf(qs[|qs| - 1])
  }

  /** A blank id becomes the next supplied value. */
  function FillOne(id: string, supply: Supply, used: nat): (string, nat) {
    if id == "" then (supply(used), used + 1) else (id, used)
  }

  /** The blank ids replaced by the next supplied values, one each. */
  function FillIn(labels: seq<string>, supply: Supply, used: nat): (seq<string>, nat) {
    if labels == [] then ([], used)
    else
      var (done, u) := FillIn(labels[..|labels| - 1], supply, used);
      var (last, v) := FillOne(labels[|labels| - 1], supply, u);
      (done + [last], v)
  }

  lemma FillInOneMore(labels: seq<string>, last: string, supply: Supply, used: nat)
    ensures var (done, u) := FillIn(labels, supply, used);
            var (id, v) := FillOne(last, supply, u);
            FillIn(labels + [last], supply, used) == (done + [id], v)
  {
    hide FillOne;
    assert (labels + [last])[..|labels|] == labels;
  }

  lemma {:induction false} FillInSplit(a: seq<string>, b: seq<string>, supply: Supply, used: nat)
    ensures var (first, u) := FillIn(a, supply, used);
            var (second, v) := FillIn(b, supply, u);
            FillIn(a + b, supply, used) == (first + second, v)
  {
    hide FillIn, FillOne;
    var (first, u) := FillIn(a, supply, used);
    if b == [] {
      NothingToFill(supply, u);
      assert a + b == a && first + [] == first;
    } else {
      var n := |b| - 1;
      FillInSplit(a, b[..n], supply, used);
      FillInOneMore(a + b[..n], b[n], supply, used);
      FillInOneMore(b[..n], b[n], supply, u);
      assert a + b == a + b[..n] + [b[n]] && b == b[..n] + [b[n]];
      var (second, v) := FillIn(b[..n], supply, u);
      var (id, w) := FillOne(b[n], supply, v);
      assert first + second + [id] == first + (second + [id]);
    }
  }

  lemma NothingToFill(supply: Supply, used: nat)
    ensures FillIn([], supply, used) == ([], used)
  {
  }

  // --- the normalizer draws like that --------------------------------------------------------

  lemma ChoiceFillsIn(c: Choice, supply: Supply, used: nat)
    requires CleanChoice(c, supply, used).Some?
    ensures var (out, u) := CleanChoice(c, supply, used).value; FillOne(c.id, supply, used) == (out.id, u)
  {
  }

  lemma ChoiceIdsOneMore(cs: seq<Choice>, c: Choice)
    ensures ChoiceIds(cs + [c]) == ChoiceIds(cs) + [c.id]
  {
  }

  lemma {:induction false} ChoicesFillIn(cs: seq<Choice>, supply: Supply, used: nat)
    requires CleanChoices(cs, supply, used).Some?
    ensures var (out, u) := CleanChoices(cs, supply, used).value;
            FillIn(ChoiceIds(cs), supply, used) == (ChoiceIds(out), u)
  {
    hide CleanChoice, FillIn, FillOne, ChoiceIds;
    if cs == [] {
      NothingToFill(supply, used);
      assert ChoiceIds([]) == [];
    } else {
      var n := |cs| - 1;
      ChoicesFillIn(cs[..n], supply, used);
      var (done, u) := CleanChoices(cs[..n], supply, used).value;
      var (last, v) := CleanChoice(cs[n], supply, u).value;
      ChoiceFillsIn(cs[n], supply, u);
      assert cs == cs[..n] + [cs[n]];
      ChoiceIdsOneMore(cs[..n], cs[n]);
      ChoiceIdsOneMore(done, last);
      FillInOneMore(ChoiceIds(cs[..n]), cs[n].id, supply, used);
    }
  }

  lemma OneLabel(id: string, supply: Supply, used: nat)
    ensures var (out, u) := FillOne(id, supply, used); FillIn([id], supply, used) == ([out], u)
  {
    hide FillIn, FillOne;
    NothingToFill(supply, used);
    FillInOneMore([], id, supply, used);
    assert [] + [id] == [id] && [] + [FillOne(id, supply, used).0] == [FillOne(id, supply, used).0];
  }

  lemma QuestionFillsIn(q: Question, supply: Supply, used: nat)
    requires CleanQuestion(q, supply, used).Ok?
    ensures var (out, u) := CleanQuestion(q, supply, used).value;
            FillIn(LabelsOf(q), supply, used) == (LabelsOf(out), u)
  {
    hide Text.TrimSpace, Dedupe, Answers, CleanChoices, FillIn, ChoiceIds;
    OneLabel(q.id, supply, used);
    var u := if q.id == "" then used + 1 else used;
    if HasChoices(q.kind) {
      ChoicesFillIn(q.choices, supply, u);
      FillInSplit([q.id], ChoiceIds(q.choices), supply, used);
    } else {
      assert [q.id] + [] == [q.id];
      assert LabelsOf(CleanQuestion(q, supply, used).value.0) == [FillOne(q.id, supply, used).0];
    }
  }

  lemma LabelsOneMore(qs: seq<Question>, q: Question)
    ensures Labels(qs + [q]) == Labels(qs) + LabelsOf(q)
  {
    assert (qs + [q])[..|qs|] == qs;
  }

  lemma {:induction false} QuestionsFillIn(qs: seq<Question>, supply: Supply, used: nat)
    requires CleanQuestions(qs, supply, used).Ok?
    ensures var (out, u) := CleanQuestions(qs, supply, used).value;
            FillIn(Labels(qs), supply, used) == (Labels(out), u)
  {
    hide CleanQuestion, LabelsOf, FillIn;
    if qs == [] {
      NothingToFill(supply, used);
    } else {
      var n := |qs| - 1;
      QuestionsFillIn(qs[..n], supply, used);
      var (done, u) := CleanQuestions(qs[..n], supply, used).value;
      var (last, v) := CleanQuestion(qs[n], supply, u).value;
      QuestionFillsIn(qs[n], supply, u);
      FillInSplit(Labels(qs[..n]), LabelsOf(qs[n]), supply, used);
      LabelsOneMore(done, last);
    }
  }

  // --- new and distinct ------------------------------------------------------------------------

  /** The generator never repeats itself. */
  ghost predicate NeverRepeats(supply: Supply) {
    forall i, j :: supply(i) == supply(j) ==> i == j
  }

  /** From here on it gives nothing the author already used. */
  ghost predicate NewFrom(supply: Supply, used: nat, given: seq<string>) {
    forall k: nat :: used <= k ==> supply(k) !in given
  }

  /** Given ids kept; every filled-in id differs from every other id. */
  ghost predicate FilledApart(given: seq<string>, out: seq<string>) {
    && |out| == |given|
    && (forall i :: 0 <= i < |given| && given[i] != "" ==> out[i] == given[i])
    && (forall i, j :: 0 <= i < |given| && 0 <= j < |given| && i != j && given[i] == "" ==> out[i] != out[j])
  }

  ghost predicate Drawn(supply: Supply, used: nat, u: nat, id: string) {
    exists k: nat :: used <= k < u && supply(k) == id
  }

  lemma {:induction false} FillInDraws(given: seq<string>, supply: Supply, used: nat)
    ensures var (out, u) := FillIn(given, supply, used);
            && used <= u && |out| == |given|
            && forall i :: 0 <= i < |given| ==> if given[i] == "" then Drawn(supply, used, u, out[i]) else out[i] == given[i]
  {
    if given != [] {
      var n := |given| - 1;
      FillInDraws(given[..n], supply, used);
      var (done, v) := FillIn(given[..n], supply, used);
      var (out, u) := FillIn(given, supply, used);
      forall i | 0 <= i < |given| ensures if given[i] == "" then Drawn(supply, used, u, out[i]) else out[i] == given[i] {
        if i < n {
          assert given[..n][i] == given[i] && out[i] == done[i];
        } else if given[n] == "" {
          assert supply(v) == out[n];
        }
      }
    }
  }

  lemma {:induction false} FillInIsApart(given: seq<string>, supply: Supply, used: nat)
    requires NeverRepeats(supply) && NewFrom(supply, used, given)
    ensures FilledApart(given, FillIn(given, supply, used).0)
  {
    FillInDraws(given, supply, used);
    if given != [] {
      var n := |given| - 1;
      assert forall k: nat :: used <= k ==> supply(k) !in given[..n];
      FillInIsApart(given[..n], supply, used);
      FillInDraws(given[..n], supply, used);
      var (done, v) := FillIn(given[..n], supply, used);
      var out := FillIn(given, supply, used).0;
      forall i | 0 <= i < n && (given[i] == "" || given[n] == "") ensures out[i] != out[n] {
        LastApart(given, supply, used, i);
      }
    }
  }

  /** The last id is new against an earlier one when either was blank. */
  lemma LastApart(given: seq<string>, supply: Supply, used: nat, i: nat)
    requires NeverRepeats(supply) && NewFrom(supply, used, given)
    requires i < |given| - 1 && (given[i] == "" || given[|given| - 1] == "")
    ensures var out := FillIn(given, supply, used).0; |out| == |given| && out[i] != out[|given| - 1]
  {
    var n := |given| - 1;
    var (done, v) := FillIn(given[..n], supply, used);
    FillInDraws(given, supply, used);
    FillInDraws(given[..n], supply, used);
    assert given[..n][i] == given[i];
    if given[n] == "" {
      assert supply(v) !in given;
    }
  }

  /**
    Over a whole accepted payload every generated id is new: it differs from every id the
    author gave and from every other generated one, and given ids are kept.
  */
  lemma GeneratedIdsAreNew(t: ResourceType, c: Content, supply: Supply, used: nat)
    requires t == Quiz || t == Listening || t == Reading
    requires NeverRepeats(supply) && NewFrom(supply, used, Labels(c.questions))
    requires Clean(t, c, supply, used).Ok?
    ensures FilledApart(Labels(c.questions), Labels(Clean(t, c, supply, used).value.0.questions))
  {
    hide CleanQuestions, Labels, FillIn, FilledApart, NeverRepeats, NewFrom;
    QuestionsFillIn(c.questions, supply, used);
    FillInIsApart(Labels(c.questions), supply, used);
  }

  // --- choices of one question -----------------------------------------------------------------

  /** The same kind of question, its ids filled in apart; a text question holds no choices. */
  ghost predicate IdsFilled(q: Question, out: Question) {
    && FilledApart(LabelsOf(q), LabelsOf(out))
    && out.kind == q.kind && (HasChoices(q.kind) || out.choices == [])
  }

  ghost predicate AllIdsFilled(qs: seq<Question>, out: seq<Question>) {
    |out| == |qs| && forall i :: 0 <= i < |qs| ==> IdsFilled(qs[i], out[i])
  }

  lemma QuestionIdsFilled(q: Question, supply: Supply, used: nat)
    requires NeverRepeats(supply) && NewFrom(supply, used, LabelsOf(q))
    requires CleanQuestion(q, supply, used).Ok?
    ensures IdsFilled(q, CleanQuestion(q, supply, used).value.0)
  {
    hide Text.TrimSpace, Dedupe, Answers, CleanChoices, FillIn, ChoiceIds, FilledApart, NeverRepeats, NewFrom;
    QuestionFillsIn(q, supply, used);
    FillInIsApart(LabelsOf(q), supply, used);
  }

  lemma {:induction false} QuestionsStayApart(qs: seq<Question>, supply: Supply, used: nat)
    requires NeverRepeats(supply) && NewFrom(supply, used, Labels(qs))
    requires CleanQuestions(qs, supply, used).Ok?
    ensures AllIdsFilled(qs, CleanQuestions(qs, supply, used).value.0)
  {
    hide CleanQuestion, LabelsOf, FillIn, IdsFilled, NeverRepeats;
    if qs != [] {
      var n := |qs| - 1;
      var (done, u) := CleanQuestions(qs[..n], supply, used).value;
      assert NewFrom(supply, used, Labels(qs[..n]));
      QuestionsStayApart(qs[..n], supply, used);
      QuestionsFillIn(qs[..n], supply, used);
      FillInDraws(Labels(qs[..n]), supply, used);
      assert NewFrom(supply, u, LabelsOf(qs[n]));
      QuestionIdsFilled(qs[n], supply, u);
      assert forall i :: 0 <= i < n ==> qs[..n][i] == qs[i];
    }
  }

  ghost predicate DistinctIds(cs: seq<Choice>) {
    forall i, j :: 0 <= i < j < |cs| ==> cs[i].id != cs[j].id
  }

  /** A question whose given choice ids are distinct is stored with distinct choice ids. */
  lemma DistinctChoicesStayDistinct(t: ResourceType, c: Content, supply: Supply, used: nat, i: nat)
    requires t == Quiz || t == Listening || t == Reading
    requires NeverRepeats(supply) && NewFrom(supply, used, Labels(c.questions))
    requires Clean(t, c, supply, used).Ok?
    requires i < |c.questions|
    requires var cs := c.questions[i].choices;
             forall a, b :: 0 <= a < b < |cs| && cs[a].id == cs[b].id ==> cs[a].id == ""
    ensures var out := Clean(t, c, supply, used).value.0.questions;
            |out| == |c.questions| && DistinctIds(out[i].choices)
  {
    hide CleanQuestions, FillIn, NeverRepeats, NewFrom, Labels, IdsFilled, DistinctIds;
    QuestionsStayApart(c.questions, supply, used);
    ChoicesApart(c.questions[i], CleanQuestions(c.questions, supply, used).value.0[i]);
  }

  lemma ChoicesApart(q: Question, r: Question)
    requires IdsFilled(q, r)
    requires forall a, b :: 0 <= a < b < |q.choices| && q.choices[a].id == q.choices[b].id ==> q.choices[a].id == ""
    ensures DistinctIds(r.choices)
  {
    if HasChoices(q.kind) {
      var given, out := LabelsOf(q), LabelsOf(r);
      assert |r.choices| == |q.choices|;
      forall a, b | 0 <= a < b < |r.choices| ensures r.choices[a].id != r.choices[b].id {
        assert given[a + 1] == q.choices[a].id && given[b + 1] == q.choices[b].id;
        assert out[a + 1] == r.choices[a].id && out[b + 1] == r.choices[b].id;
      }
    }
  }
}
